/**
  Leaving a position: a limit order that is watched until a deadline, then the rest at
  market in chunks the exchange accepts.  Quantities are whole numbers of the exchange's
  smallest unit.
 */
module ExitExecution {
  import opened Common

  datatype ExitStatus = Created | Submitted | PartiallyFilled | Filled | Canceled | Rejected | Expired

  predicate Working(s: ExitStatus) {
    s.Created? || s.Submitted? || s.PartiallyFilled?
  }

  datatype ExitOrder = ExitOrder(quantity: int, filled: int, status: ExitStatus)

  /** `marketStep`, `marketMin`, `marketMax` are the market-order filters where they differ. */
  datatype ExitFilters = ExitFilters(
    step: int, minQuantity: int, marketStep: Option<int>, marketMin: Option<int>, marketMax: Option<int>)
  {
    predicate Valid() {
      && step > 0 && minQuantity > 0
      && (marketStep.Some? ==> marketStep.value > 0)
      && (marketMin.Some? ==> marketMin.value > 0)
      && (marketMax.Some? ==> marketMax.value > 0)
    }

    function MStep(): int { if marketStep.Some? then marketStep.value else step }

    function MMin(): int { if marketMin.Some? then marketMin.value else minQuantity }
  }

  datatype ExitError = BelowMinimum | NoFill | FlatRejection | RequestFailed | NotPositive

  function MinInt(a: int, b: int): int {
    if a <= b then a else b
  }

  function RoundDown(q: int, step: int): (r: int)
    requires step > 0
    ensures r <= q < r + step && OnStep(r, step)
    ensures q >= 0 ==> r >= 0
  {
    var k := q / step;
    assert IsSteps(k * step, k, step);
    k * step
  }

  predicate IsSteps(q: int, k: int, step: int) {
    q == k * step
  }

  ghost predicate OnStep(q: int, step: int) {
    exists k :: IsSteps(q, k, step)
  }

  function Sum(xs: seq<int>): int {
    if xs == [] then 0 else Sum(xs[..|xs| - 1]) + xs[|xs| - 1]
  }

  lemma SumSnoc(xs: seq<int>, x: int)
    ensures Sum(xs + [x]) == Sum(xs) + x && Sum([]) == 0
  {
    assert (xs + [x])[..|xs|] == xs;
  }

  /** Too little for one more market order. */
  predicate Untradable(f: ExitFilters, residue: int, maxChunk: int)
    requires f.Valid()
  {
    residue < f.MMin() || RoundDown(MinInt(residue, maxChunk), f.MStep()) < f.MMin()
  }

  predicate LimitProgress(a: Option<ExitOrder>, b: Option<ExitOrder>) {
    && a.Some? == b.Some?
    && (a.Some? ==>
          && b.value.quantity == a.value.quantity
          && a.value.filled <= b.value.filled <= a.value.quantity
          && (!Working(a.value.status) ==> b == a))
  }

  // ----- The exchange's script -----

  /**
    What the exchange does with one request and what comes back: whether it is answered, whether
    a write takes effect, how far and in which status the limit order, or how far a market order,
    has got by then, and whether a position read shows it gone.
   */
  datatype ExitReply = ExitReply(answered: bool, effective: bool, filled: int, status: ExitStatus, flat: bool)

  /** After the end of the script every request is answered and takes effect. */
  const CALM := ExitReply(true, true, 0, Submitted, true)

  function NextReply(replies: seq<ExitReply>): ExitReply {
    if replies == [] then CALM else replies[0]
  }

  /** The exchange and what an observer keeps of it. */
  datatype ExitWorld = ExitWorld(
    limit: Option<ExitOrder>, marketSold: int, chunks: seq<int>, flatSeen: bool, protectionCancelled: bool,
    cancelledBlindly: bool, targetsCancelled: bool, unknownSeen: bool, survivedCancel: bool, replies: seq<ExitReply>)

  function Asked(w: ExitWorld): ExitWorld {
    w.(replies := Rest(w.replies))
  }

  /** A working order may fill further or end at any moment. */
  function Drifted(limit: Option<ExitOrder>, reply: ExitReply): (r: Option<ExitOrder>)
    ensures (limit.Some? ==> 0 <= limit.value.filled <= limit.value.quantity) ==> LimitProgress(limit, r)
  {
    if limit.Some? && Working(limit.value.status) && limit.value.filled <= reply.filled <= limit.value.quantity
    then Some(limit.value.(filled := reply.filled, status := reply.status)) else limit
  }

  function PlaceRun(w: ExitWorld, quantity: int, f: ExitFilters): (ExitWorld, Result<ExitOrder, ExitError>)
    requires f.Valid()
  {
    var rounded, reply, asked := RoundDown(quantity, f.step), NextReply(w.replies), Asked(w).(flatSeen := false);
    if rounded < f.minQuantity then (w.(flatSeen := false), Err(BelowMinimum))
    else if !reply.effective then (asked, Err(if reply.answered then FlatRejection else RequestFailed))
    else
      var limit := Drifted(Some(ExitOrder(rounded, 0, Submitted)), reply);
      if !reply.answered then (asked.(limit := limit), Err(RequestFailed))
      else (asked.(limit := limit, unknownSeen := w.unknownSeen || limit.value.status.Created?), Ok(limit.value))
  }

  function GetRun(w: ExitWorld, afterCancel: bool): (ExitWorld, Result<ExitOrder, ExitError>)
    requires w.limit.Some?
  {
    var reply, limit := NextReply(w.replies), Drifted(w.limit, NextReply(w.replies));
    if !reply.answered then (Asked(w).(limit := limit), Err(RequestFailed))
    else
      (Asked(w).(limit := limit, unknownSeen := w.unknownSeen || limit.value.status.Created?,
                 survivedCancel := w.survivedCancel || (afterCancel && Working(limit.value.status))),
       Ok(limit.value))
  }

  function CancelRun(w: ExitWorld): (ExitWorld, Result<ExitOrder, ExitError>)
    requires w.limit.Some?
  {
    var reply, drifted := NextReply(w.replies), Drifted(w.limit, NextReply(w.replies)).value;
    var ended := if (reply.answered || reply.effective) && Working(drifted.status) then drifted.(status := Canceled) else drifted;
    (Asked(w).(limit := Some(ended), flatSeen := false), if reply.answered then Ok(ended) else Err(RequestFailed))
  }

  function MarketRun(w: ExitWorld, chunk: int): (ExitWorld, Result<int, ExitError>) {
    var reply := NextReply(w.replies);
    var filled := if 0 <= reply.filled <= chunk then reply.filled else 0;
    (Asked(w).(flatSeen := false, chunks := w.chunks + [chunk], marketSold := w.marketSold + filled),
     if reply.answered then Ok(filled) else Err(RequestFailed))
  }

  function FlatRun(w: ExitWorld): (ExitWorld, Result<bool, ExitError>) {
    var reply := NextReply(w.replies);
    (Asked(w).(flatSeen := reply.answered && reply.flat), if reply.answered then Ok(reply.flat) else Err(RequestFailed))
  }

  function DropProtectionRun(w: ExitWorld): (ExitWorld, bool) {
    (Asked(w).(protectionCancelled := true, cancelledBlindly := w.cancelledBlindly || !w.flatSeen),
     NextReply(w.replies).answered)
  }

  function DropTargetsRun(w: ExitWorld): (ExitWorld, bool) {
    (Asked(w).(targetsCancelled := true), NextReply(w.replies).answered)
  }

  class ExitVenue {
    /** The limit exit of this operation. */
    var limit: Option<ExitOrder>
    /** What the exchange will do with the requests to come. */
    var replies: seq<ExitReply>
    /** Everything market orders have closed. */
    ghost var marketSold: int
    /** The market quantities asked for. */
    ghost var chunks: seq<int>
    /** The latest thing learned from the exchange is that the position is flat. */
    ghost var flatSeen: bool
    ghost var protectionCancelled: bool
    /** Protection was cancelled without that. */
    ghost var cancelledBlindly: bool
    ghost var targetsCancelled: bool
    ghost var unknownSeen: bool
    /** A cancellation failed and the next report still showed the limit order working. */
    ghost var survivedCancel: bool

    constructor (replies: seq<ExitReply>)
      ensures Now() == ExitWorld(None, 0, [], false, false, false, false, false, false, replies)
    {
      this.replies := replies;
      limit, marketSold, chunks, flatSeen := None, 0, [], false;
      protectionCancelled, cancelledBlindly, targetsCancelled, unknownSeen, survivedCancel := false, false, false, false, false;
    }

    ghost function Now(): ExitWorld
      reads this
    {
      ExitWorld(limit, marketSold, chunks, flatSeen, protectionCancelled, cancelledBlindly, targetsCancelled, unknownSeen,
                survivedCancel, replies)
    }

    ghost predicate Valid()
      reads this
    {
      limit.Some? ==> 0 <= limit.value.filled <= limit.value.quantity
    }

    /** Closed so far plus what a working limit order may still close. */
    ghost function Committed(): int
      reads this
    {
      marketSold + if limit.None? then 0 else if Working(limit.value.status) then limit.value.quantity else limit.value.filled
    }

    method PlaceLimitExit(quantity: int, f: ExitFilters) returns (r: Result<ExitOrder, ExitError>)
      requires Valid() && limit.None? && f.Valid() && quantity > 0
      modifies this`replies, this`limit, this`flatSeen, this`unknownSeen
      ensures (Now(), r) == PlaceRun(old(Now()), quantity, f)
      ensures Valid() && !flatSeen
      ensures limit.Some? ==> limit.value.quantity == RoundDown(quantity, f.step)
      ensures r.Ok? ==> limit == Some(r.value) && r.value.quantity >= f.minQuantity
      ensures r == Err(FlatRejection) ==> limit.None?
      ensures unknownSeen == (old(unknownSeen) || (r.Ok? && r.value.status.Created?))
    {
      flatSeen := false;
      var rounded := RoundDown(quantity, f.step);
      if rounded < f.minQuantity {
        return Err(BelowMinimum);
      }
      var reply := NextReply(replies);
      replies := Rest(replies);
      if !reply.effective {
        return Err(if reply.answered then FlatRejection else RequestFailed);
      }
      limit := Drifted(Some(ExitOrder(rounded, 0, Submitted)), reply);
      if !reply.answered {
        return Err(RequestFailed);
      }
      unknownSeen := unknownSeen || limit.value.status.Created?;
      return Ok(limit.value);
    }

    method GetOrder(ghost afterCancel: bool) returns (r: Result<ExitOrder, ExitError>)
      requires Valid() && limit.Some?
      modifies this`replies, this`limit, this`unknownSeen, this`survivedCancel
      ensures (Now(), r) == GetRun(old(Now()), afterCancel)
      ensures Valid() && LimitProgress(old(limit), limit)
      ensures r.Ok? ==> limit == Some(r.value)
      ensures unknownSeen == (old(unknownSeen) || (r.Ok? && r.value.status.Created?))
      ensures survivedCancel == (old(survivedCancel) || (afterCancel && r.Ok? && Working(r.value.status)))
    {
      var reply := NextReply(replies);
      replies := Rest(replies);
      limit := Drifted(limit, reply);
      if !reply.answered {
        return Err(RequestFailed);
      }
      unknownSeen := unknownSeen || limit.value.status.Created?;
      survivedCancel := survivedCancel || (afterCancel && Working(limit.value.status));
      return Ok(limit.value);
    }

    /** An answered cancellation ends the order; one that fails may have. */
    method CancelOrder() returns (r: Result<ExitOrder, ExitError>)
      requires Valid() && limit.Some?
      modifies this`replies, this`limit, this`flatSeen
      ensures (Now(), r) == CancelRun(old(Now()))
      ensures Valid() && LimitProgress(old(limit), limit) && !flatSeen
      ensures r.Ok? ==> limit == Some(r.value) && !Working(r.value.status)
    {
      var reply := NextReply(replies);
      replies := Rest(replies);
      flatSeen := false;
      limit := Drifted(limit, reply);
      if (reply.answered || reply.effective) && Working(limit.value.status) {
        limit := Some(limit.value.(status := Canceled));
      }
      return if reply.answered then Ok(limit.value) else Err(RequestFailed);
    }

    /** A market order is over when it is answered; unanswered, it may have closed something. */
    method MarketOrder(chunk: int) returns (r: Result<int, ExitError>)
      requires chunk > 0
      modifies this`replies, this`marketSold, this`chunks, this`flatSeen
      ensures (Now(), r) == MarketRun(old(Now()), chunk)
      ensures !flatSeen && chunks == old(chunks) + [chunk]
      ensures old(marketSold) <= marketSold <= old(marketSold) + chunk
      ensures r.Ok? ==> marketSold == old(marketSold) + r.value
    {
      var reply := NextReply(replies);
      replies := Rest(replies);
      flatSeen := false;
      chunks := chunks + [chunk];
      var filled := if 0 <= reply.filled <= chunk then reply.filled else 0;
      marketSold := marketSold + filled;
      return if reply.answered then Ok(filled) else Err(RequestFailed);
    }

    /** Whether the position is gone. */
    method ReadFlat() returns (r: Result<bool, ExitError>)
      modifies this`replies, this`flatSeen
      ensures (Now(), r) == FlatRun(old(Now()))
    {
      var reply := NextReply(replies);
      replies := Rest(replies);
      flatSeen := reply.answered && reply.flat;
      return if reply.answered then Ok(reply.flat) else Err(RequestFailed);
    }

    method CancelPositionProtection() returns (ok: bool)
      modifies this`replies, this`protectionCancelled, this`cancelledBlindly
      ensures (Now(), ok) == DropProtectionRun(old(Now()))
    {
      var reply := NextReply(replies);
      replies := Rest(replies);
      protectionCancelled := true;
      cancelledBlindly := cancelledBlindly || !flatSeen;
      return reply.answered;
    }

    method CancelTakeProfits() returns (ok: bool)
      modifies this`replies, this`targetsCancelled
      ensures (Now(), ok) == DropTargetsRun(old(Now()))
    {
      var reply := NextReply(replies);
      replies := Rest(replies);
      targetsCancelled := true;
      return reply.answered;
    }
  }

  /** Market orders for what remains, one chunk after the other. */
  function ChunksRun(w: ExitWorld, remaining: int, maxChunk: int, orders: seq<int>, f: ExitFilters)
    : (ExitWorld, Result<seq<int>, ExitError>)
    requires f.Valid()
    decreases remaining
  {
    if remaining < f.MMin() || RoundDown(MinInt(remaining, maxChunk), f.MStep()) < f.MMin()
    then (w, if orders == [] then Err(BelowMinimum) else Ok(orders))
    else
      var (after, filled) := MarketRun(w, RoundDown(MinInt(remaining, maxChunk), f.MStep()));
      if filled.Err? then (after, Err(filled.error))
      else if filled.value <= 0 then (after, Err(NoFill))
      else ChunksRun(after, remaining - filled.value, maxChunk, orders + [filled.value], f)
  }

  function CloseRun(w: ExitWorld, position: int, quantity: int, f: ExitFilters): (ExitWorld, Result<seq<int>, ExitError>)
    requires f.Valid()
  {
    var target := RoundDown(MinInt(quantity, position), f.MStep());
    if target < f.MMin() then (w, Err(BelowMinimum))
    else ChunksRun(w, target, if f.marketMax.Some? then f.marketMax.value else target, [], f)
  }

  /**
    Close up to `quantity` at market.  Whatever fails, no more than that is ever closed; on
    success what is left of the rounded quantity is too little for another market order.
   */
  method ClosePositionQuantityMarketOrders(venue: ExitVenue, positionQuantity: int, quantity: int, f: ExitFilters)
    returns (r: Result<seq<int>, ExitError>)
    requires f.Valid()
    modifies venue`replies, venue`marketSold, venue`chunks, venue`flatSeen
    ensures (venue.Now(), r) == CloseRun(old(venue.Now()), positionQuantity, quantity, f)
    ensures var target := RoundDown(MinInt(quantity, positionQuantity), f.MStep());
            var maxChunk := if f.marketMax.Some? then f.marketMax.value else target;
            && old(venue.marketSold) <= venue.marketSold
            && (venue.chunks != old(venue.chunks) ==> venue.marketSold <= old(venue.marketSold) + target)
            && (venue.chunks == old(venue.chunks) ==> venue.marketSold == old(venue.marketSold))
            && old(venue.chunks) <= venue.chunks
            && (forall i :: |old(venue.chunks)| <= i < |venue.chunks| ==>
                              && f.MMin() <= venue.chunks[i] <= maxChunk
                              && OnStep(venue.chunks[i], f.MStep()))
            && (r.Ok? ==>
                  && r.value != []
                  && (forall x :: x in r.value ==> x > 0)
                  && Sum(r.value) == venue.marketSold - old(venue.marketSold)
                  && Untradable(f, target - Sum(r.value), maxChunk))
    ensures r.Err? ==> venue.chunks == old(venue.chunks) ==> r.error == BelowMinimum
    ensures venue.chunks != old(venue.chunks) ==> !venue.flatSeen
    ensures venue.chunks == old(venue.chunks) ==> venue.flatSeen == old(venue.flatSeen)
  {
    hide RoundDown, OnStep, MarketRun, Sum;
    SumSnoc([], 0);
    var target := RoundDown(MinInt(quantity, positionQuantity), f.MStep());
    if target < f.MMin() {
      return Err(BelowMinimum);
    }
    var maxChunk := if f.marketMax.Some? then f.marketMax.value else target;
    var remaining := target;
    var orders: seq<int> := [];
    while remaining >= f.MMin()
      invariant 0 <= remaining <= target
      invariant ChunksRun(venue.Now(), remaining, maxChunk, orders, f)
                == CloseRun(old(venue.Now()), positionQuantity, quantity, f)
      invariant Sum(orders) == target - remaining == venue.marketSold - old(venue.marketSold)
      invariant forall x :: x in orders ==> x > 0
      invariant old(venue.chunks) <= venue.chunks
      invariant orders == [] <==> venue.chunks == old(venue.chunks)
      invariant forall i :: |old(venue.chunks)| <= i < |venue.chunks| ==>
                              f.MMin() <= venue.chunks[i] <= maxChunk && OnStep(venue.chunks[i], f.MStep())
      invariant venue.chunks != old(venue.chunks) ==> !venue.flatSeen
      invariant venue.chunks == old(venue.chunks) ==> venue.flatSeen == old(venue.flatSeen)
      decreases remaining
    {
      var chunk := RoundDown(MinInt(remaining, maxChunk), f.MStep());
      if chunk < f.MMin() {
        break;
      }
      var filled := venue.MarketOrder(chunk);
      if filled.Err? {
        return Err(filled.error);
      }
      if filled.value <= 0 {
        return Err(NoFill);
      }
      SumSnoc(orders, filled.value);
      orders := orders + [filled.value];
      remaining := remaining - filled.value;
    }
    if orders == [] {
      return Err(BelowMinimum);
    }
    return Ok(orders);
  }

  /** The orders handed back: the last report on the limit order, then the market fills. */
  datatype ExitReport = AlreadyFlat | Orders(limit: ExitOrder, market: seq<int>)

  // ----- The exit, as functions -----

  predicate Unfinished(o: ExitOrder) {
    o.status.Submitted? || o.status.PartiallyFilled?
  }

  function WatchRun(w: ExitWorld, latest: ExitOrder, elapsed: int, timeout: int, poll: int)
    : (r: (ExitWorld, Result<ExitOrder, ExitError>))
    requires poll >= 1 && w.limit.Some?
    ensures r.0.limit.Some?
    decreases timeout - elapsed
  {
    if elapsed >= timeout || !Unfinished(latest) then (w, Ok(latest))
    else
      var (after, report) := GetRun(w, false);
      if report.Err? then (after, Err(report.error))
      else WatchRun(after, report.value, elapsed + MinInt(poll, timeout - elapsed), timeout, poll)
  }

  /** The exchange after so many polls of the limit order. */
  function AfterPolls(w: ExitWorld, n: nat): (r: ExitWorld)
    requires w.limit.Some?
    ensures r.limit.Some?
  {
    if n == 0 then w else GetRun(AfterPolls(w, n - 1), false).0
  }

  /** What poll `n` answers, counted from one; poll zero stands for the report at hand. */
  function PollAnswer(w: ExitWorld, latest: ExitOrder, n: nat): Result<ExitOrder, ExitError>
    requires w.limit.Some?
  {
    if n == 0 then Ok(latest) else GetRun(AfterPolls(w, n - 1), false).1
  }

  /**
    Watching makes `n` polls.  All but the last show the order unfinished and come before the
    deadline; the last one fails, shows it over, or is the one at the deadline.
   */
  ghost predicate WatchedFor(w: ExitWorld, latest: ExitOrder, seconds: int, poll: int,
                             r: (ExitWorld, Result<ExitOrder, ExitError>), n: nat)
    requires w.limit.Some?
  {
    && r.0 == AfterPolls(w, n) && r.1 == PollAnswer(w, latest, n)
    && (n > 0 ==> (n - 1) * poll < seconds)
    && (forall i :: 0 <= i < n ==>
          PollAnswer(w, latest, i).Ok? && Unfinished(PollAnswer(w, latest, i).value))
    && (r.1.Ok? ==> !Unfinished(r.1.value) || n * poll >= seconds)
  }

  lemma {:induction false} PollsShift(w: ExitWorld, latest: ExitOrder, next: ExitOrder, n: nat)
    requires w.limit.Some? && GetRun(w, false).1 == Ok(next)
    ensures AfterPolls(w, n + 1) == AfterPolls(GetRun(w, false).0, n)
    ensures PollAnswer(w, latest, n + 1) == PollAnswer(GetRun(w, false).0, next, n)
  {
    hide GetRun;
    if n > 0 {
      PollsShift(w, latest, next, n - 1);
    }
  }

  /** How the limit order is watched, for any script of the exchange, deadline and interval. */
  lemma {:induction false} WatchMeaning(w: ExitWorld, latest: ExitOrder, elapsed: int, timeout: int, poll: int)
    returns (n: nat)
    requires poll >= 1 && w.limit.Some?
    ensures WatchedFor(w, latest, timeout - elapsed, poll, WatchRun(w, latest, elapsed, timeout, poll), n)
    decreases timeout - elapsed
  {
    assert GetRun(w, false).0.limit.Some?;
    hide GetRun, Unfinished;
    n := 0;
    if elapsed < timeout && Unfinished(latest) {
      var (after, report) := GetRun(w, false);
      assert AfterPolls(w, 0) == w;
      n := 1;
      if report.Ok? {
        var later := WatchMeaning(after, report.value, elapsed + MinInt(poll, timeout - elapsed), timeout, poll);
        WatchStep(w, latest, timeout - elapsed, poll, report.value, later,
                  WatchRun(after, report.value, elapsed + MinInt(poll, timeout - elapsed), timeout, poll));
        n := later + 1;
      }
    }
  }

  lemma WatchStep(w: ExitWorld, latest: ExitOrder, seconds: int, poll: int, next: ExitOrder, n: nat,
                  r: (ExitWorld, Result<ExitOrder, ExitError>))
    requires poll >= 1 && w.limit.Some? && seconds > 0 && Unfinished(latest) && GetRun(w, false).1 == Ok(next)
    requires WatchedFor(GetRun(w, false).0, next, seconds - MinInt(poll, seconds), poll, r, n)
    ensures WatchedFor(w, latest, seconds, poll, r, n + 1)
  {
    hide GetRun, Unfinished, PollAnswer, AfterPolls;
    var after := GetRun(w, false).0;
    PollsShift(w, latest, next, n);
    assert (n + 1) * poll == n * poll + poll;
    assert n > 0 ==> (n - 1) * poll == n * poll - poll;
    assert n * poll >= 0;
    forall i | 0 <= i < n + 1
      ensures PollAnswer(w, latest, i).Ok? && Unfinished(PollAnswer(w, latest, i).value)
    {
      if i == 0 {
        NoPoll(w, latest);
      } else {
        PollsShift(w, latest, next, i - 1);
      }
    }
  }

  lemma NoPoll(w: ExitWorld, latest: ExitOrder)
    requires w.limit.Some?
    ensures PollAnswer(w, latest, 0) == Ok(latest)
  {
  }

  function EndRun(w: ExitWorld, latest: ExitOrder): (ExitWorld, Result<ExitOrder, ExitError>)
    requires w.limit.Some?
  {
    if !Unfinished(latest) then (w, Ok(latest))
    else
      var (after, ended) := CancelRun(w);
      if ended.Ok? then (after, ended) else GetRun(after, true)
  }

  function RemainderRun(w: ExitWorld, position: int, latest: ExitOrder, f: ExitFilters)
    : (ExitWorld, Result<(ExitOrder, seq<int>), ExitError>)
    requires w.limit.Some? && f.Valid()
  {
    if latest.quantity - latest.filled <= 0 then (w, Ok((latest, [])))
    else
      var (after, ended) := EndRun(w, latest);
      if ended.Err? then (after, Err(ended.error))
      else if ended.value.quantity - ended.value.filled <= 0 then (after, Ok((ended.value, [])))
      else
        var (sold, closed) := CloseRun(after, position, ended.value.quantity - ended.value.filled, f);
        (sold, if closed.Err? then Err(closed.error) else Ok((ended.value, closed.value)))
  }

  function CleanUpRun(w: ExitWorld, position: int, quantity: int, totalFilled: int): (ExitWorld, bool) {
    if totalFilled <= 0 then (w, true)
    else if quantity < position then DropTargetsRun(w)
    else if totalFilled < quantity then (w, true)
    else
      var (read, flat) := FlatRun(w);
      if flat == Ok(true) then DropProtectionRun(read) else (read, true)
  }

  function RejectedRun(w: ExitWorld, error: ExitError): (ExitWorld, Result<ExitReport, ExitError>) {
    if error != FlatRejection then (w, Err(error))
    else
      var (read, flat) := FlatRun(w);
      if flat != Ok(true) then (read, Err(error))
      else
        var (dropped, ok) := DropProtectionRun(read);
        (dropped, if ok then Ok(AlreadyFlat) else Err(RequestFailed))
  }

  /** Fills that arrive between `latest` and the cancellation of the limit order are not added to the total. */
  function FinishRun(w: ExitWorld, position: int, quantity: int, latest: ExitOrder, f: ExitFilters)
    : (ExitWorld, Result<ExitReport, ExitError>)
    requires w.limit.Some? && f.Valid()
  {
    var (sold, closed) := RemainderRun(w, position, latest, f);
    if closed.Err? then (sold, Err(closed.error))
    else
      var (cleaned, ok) := CleanUpRun(sold, position, quantity, latest.filled + Sum(closed.value.1));
      (cleaned, if ok then Ok(Orders(closed.value.0, closed.value.1)) else Err(RequestFailed))
  }

  function ExecuteRun(w: ExitWorld, position: int, requested: int, f: ExitFilters, timeout: int, poll: int)
    : (ExitWorld, Result<ExitReport, ExitError>)
    requires f.Valid() && poll >= 1
  {
    var quantity := MinInt(requested, position);
    if quantity <= 0 then (w, Err(NotPositive))
    else
      var (placed, order) := PlaceRun(w, quantity, f);
      if order.Err? then RejectedRun(placed, order.error)
      else
        var (watched, latest) := WatchRun(placed, order.value, 0, timeout, poll);
        if latest.Err? then (watched, Err(latest.error)) else FinishRun(watched, position, order.value.quantity, latest.value, f)
  }

  // ----- Why an exit fails -----

  function ReplyAt(replies: seq<ExitReply>, i: nat): ExitReply {
    if i < |replies| then replies[i] else CALM
  }

  function Dropped(replies: seq<ExitReply>, n: nat): seq<ExitReply> {
    if n <= |replies| then replies[n..] else []
  }

  lemma DropOne(replies: seq<ExitReply>, n: nat)
    ensures NextReply(replies) == ReplyAt(replies, 0) && Dropped(replies, 0) == replies
    ensures Dropped(Rest(replies), n) == Dropped(replies, n + 1) && ReplyAt(Rest(replies), n) == ReplyAt(replies, n + 1)
  {
  }

  /** A market order is answered and fills something. */
  predicate Fills(reply: ExitReply) {
    reply.answered && reply.filled > 0
  }

  /**
    Market orders go on while they fill something.  They fail when nothing can be ordered at all, when an
    order is not answered, or when it fills nothing or claims to fill more than it is for.
   */
  ghost predicate ChunksEnd(w: ExitWorld, remaining: int, maxChunk: int, first: bool, f: ExitFilters, after: ExitWorld,
                            r: Result<seq<int>, ExitError>, n: nat)
    requires f.Valid()
  {
    && |after.chunks| == |w.chunks| + n && after.replies == Dropped(w.replies, n)
    && (forall i :: 0 <= i < n - 1 ==> Fills(ReplyAt(w.replies, i)))
    && (r.Ok? && n > 0 ==> Fills(ReplyAt(w.replies, n - 1)))
    && (r.Err? && n > 0 ==>
          var last, chunk := ReplyAt(w.replies, n - 1), after.chunks[|after.chunks| - 1];
          if last.answered then r.error == NoFill && !(0 < last.filled <= chunk) else r.error == RequestFailed)
    && (n == 0 ==> Untradable(f, remaining, maxChunk) && (r.Err? <==> first) && (r.Err? ==> r.error == BelowMinimum))
  }

  lemma {:induction false} ChunksMeaning(w: ExitWorld, remaining: int, maxChunk: int, orders: seq<int>, f: ExitFilters)
    returns (n: nat)
    requires f.Valid()
    ensures var (after, r) := ChunksRun(w, remaining, maxChunk, orders, f);
            ChunksEnd(w, remaining, maxChunk, orders == [], f, after, r, n)
    decreases remaining
  {
    hide RoundDown, ChunksEnd;
    n := 0;
    if Untradable(f, remaining, maxChunk) {
      NoChunk(w, remaining, maxChunk, orders, f);
    } else {
      var chunk := RoundDown(MinInt(remaining, maxChunk), f.MStep());
      var (after, filled) := MarketRun(w, chunk);
      if filled.Ok? && filled.value > 0 {
        var later := ChunksMeaning(after, remaining - filled.value, maxChunk, orders + [filled.value], f);
        var (end, r) := ChunksRun(after, remaining - filled.value, maxChunk, orders + [filled.value], f);
        n := later + 1;
        ChunksStep(w, remaining, maxChunk, orders == [], f, chunk, end, r, later);
      } else {
        n := 1;
        LastChunk(w, remaining, maxChunk, orders == [], f, chunk);
      }
    }
  }

  lemma NoChunk(w: ExitWorld, remaining: int, maxChunk: int, orders: seq<int>, f: ExitFilters)
    requires f.Valid() && Untradable(f, remaining, maxChunk)
    ensures var (after, r) := ChunksRun(w, remaining, maxChunk, orders, f);
            ChunksEnd(w, remaining, maxChunk, orders == [], f, after, r, 0)
  {
    hide RoundDown;
  }

  lemma LastChunk(w: ExitWorld, remaining: int, maxChunk: int, first: bool, f: ExitFilters, chunk: int)
    requires f.Valid() && !(MarketRun(w, chunk).1.Ok? && MarketRun(w, chunk).1.value > 0)
    ensures var (after, filled) := MarketRun(w, chunk);
            ChunksEnd(w, remaining, maxChunk, first, f, after, Err(if filled.Err? then filled.error else NoFill), 1)
  {
    hide Untradable;
    DropOne(w.replies, 0);
  }

  lemma ChunksStep(w: ExitWorld, remaining: int, maxChunk: int, first: bool, f: ExitFilters, chunk: int, end: ExitWorld,
                   r: Result<seq<int>, ExitError>, n: nat)
    requires f.Valid() && MarketRun(w, chunk).1.Ok? && MarketRun(w, chunk).1.value > 0
    requires ChunksEnd(MarketRun(w, chunk).0, remaining - MarketRun(w, chunk).1.value, maxChunk, false, f, end, r, n)
    ensures ChunksEnd(w, remaining, maxChunk, first, f, end, r, n + 1)
  {
    hide Untradable, Dropped, ReplyAt, Fills;
    var after := MarketRun(w, chunk).0;
    DropOne(w.replies, n);
    DropOne(w.replies, 0);
    assert Fills(ReplyAt(w.replies, 0)) by {
      assert NextReply(w.replies).answered && NextReply(w.replies).filled > 0;
      FillsMeaning(ReplyAt(w.replies, 0));
    }
    forall i | 1 <= i < n + 1
      ensures ReplyAt(w.replies, i) == ReplyAt(after.replies, i - 1)
    {
      DropOne(w.replies, i - 1);
    }
  }

  lemma FillsMeaning(reply: ExitReply)
    ensures Fills(reply) <==> reply.answered && reply.filled > 0
  {
  }

  /** The exchange answers every request and carries it out. */
  predicate Answering(replies: seq<ExitReply>) {
    forall i :: 0 <= i < |replies| ==> replies[i].answered && replies[i].effective
  }

  lemma {:induction false} WatchAnswered(w: ExitWorld, latest: ExitOrder, elapsed: int, timeout: int, poll: int)
    requires poll >= 1 && w.limit.Some? && Answering(w.replies)
    ensures var (after, r) := WatchRun(w, latest, elapsed, timeout, poll);
            && r.Ok? && Answering(after.replies) && after.chunks == w.chunks && after.limit.Some?
            && after.limit.value.quantity == w.limit.value.quantity
    decreases timeout - elapsed
  {
    if elapsed < timeout && Unfinished(latest) {
      var (after, report) := GetRun(w, false);
      WatchAnswered(after, report.value, elapsed + MinInt(poll, timeout - elapsed), timeout, poll);
    }
  }

  /**
    With an exchange that answers and carries out every request an exit fails only for its size, or
    because a market order filled nothing; without market orders only for its size.
   */
  lemma AnsweredExit(w: ExitWorld, position: int, requested: int, f: ExitFilters, timeout: int, poll: int)
    requires f.Valid() && poll >= 1 && w.limit.None? && Answering(w.replies)
    ensures var (after, r) := ExecuteRun(w, position, requested, f, timeout, poll);
            var quantity := MinInt(requested, position);
            && (r == Err(NotPositive) <==> quantity <= 0)
            && (quantity > 0 && RoundDown(quantity, f.step) < f.minQuantity ==> r == Err(BelowMinimum))
            && (r.Err? && quantity > 0 && RoundDown(quantity, f.step) >= f.minQuantity ==>
                  && after.limit.Some? && after.limit.value.filled < after.limit.value.quantity
                  && var left := after.limit.value.quantity - after.limit.value.filled;
                     if after.chunks == w.chunks
                     then r.error == BelowMinimum && NothingToOrder(f, MinInt(left, position))
                     else r.error == NoFill)
  {
    hide RoundDown, WatchRun, Untradable, NothingToOrder, CloseRun;
    var quantity := MinInt(requested, position);
    if quantity > 0 && RoundDown(quantity, f.step) >= f.minQuantity {
      var (placed, order) := PlaceRun(w, quantity, f);
      WatchAnswered(placed, order.value, 0, timeout, poll);
      var (watched, latest) := WatchRun(placed, order.value, 0, timeout, poll);
      WatchedReport(placed, order.value, 0, timeout, poll);
      AnsweredRemainder(watched, position, latest.value, f);
    }
  }

  /** A rejected exit counts as done exactly if the read shows the position gone and its protection can be dropped. */
  lemma RejectedMeaning(w: ExitWorld, error: ExitError)
    ensures var (after, r) := RejectedRun(w, error);
            var read, dropped := ReplyAt(w.replies, 0), ReplyAt(w.replies, 1);
            var gone := error == FlatRejection && read.answered && read.flat;
            && r == (if !gone then Err(error) else if dropped.answered then Ok(AlreadyFlat) else Err(RequestFailed))
            && after.protectionCancelled == (w.protectionCancelled || gone)
            && after.chunks == w.chunks && after.limit == w.limit
  {
    DropOne(w.replies, 0);
    DropOne(Rest(w.replies), 0);
  }

  /** Nothing more is asked of an order that is reported filled, and nothing else is ordered. */
  lemma FilledNeedsNothing(w: ExitWorld, position: int, latest: ExitOrder, f: ExitFilters)
    requires f.Valid() && w.limit == Some(latest) && latest.filled >= latest.quantity
    ensures RemainderRun(w, position, latest, f) == (w, Ok((latest, [])))
  {
  }

  /** Not even one market order is possible. */
  predicate NothingToOrder(f: ExitFilters, quantity: int)
    requires f.Valid()
  {
    var target := RoundDown(quantity, f.MStep());
    target < f.MMin() || Untradable(f, target, if f.marketMax.Some? then f.marketMax.value else target)
  }

  lemma {:induction false} WatchedReport(w: ExitWorld, latest: ExitOrder, elapsed: int, timeout: int, poll: int)
    requires poll >= 1 && w.limit == Some(latest) && Answering(w.replies)
    ensures var (after, r) := WatchRun(w, latest, elapsed, timeout, poll); r.Ok? && after.limit == Some(r.value)
    decreases timeout - elapsed
  {
    if elapsed < timeout && Unfinished(latest) {
      var (after, report) := GetRun(w, false);
      WatchedReport(after, report.value, elapsed + MinInt(poll, timeout - elapsed), timeout, poll);
    }
  }

  lemma AnsweredClose(w: ExitWorld, position: int, quantity: int, f: ExitFilters)
    requires f.Valid() && Answering(w.replies)
    ensures var (after, r) := CloseRun(w, position, quantity, f);
            && Answering(after.replies) && after.limit == w.limit
            && (r.Err? ==>
                  if after.chunks == w.chunks then r.error == BelowMinimum && NothingToOrder(f, MinInt(quantity, position))
                  else r.error == NoFill)
  {
    hide RoundDown;
    var target := RoundDown(MinInt(quantity, position), f.MStep());
    if target >= f.MMin() {
      var maxChunk := if f.marketMax.Some? then f.marketMax.value else target;
      var n := ChunksMeaning(w, target, maxChunk, [], f);
      ChunksKeepLimit(w, target, maxChunk, [], f);
    }
  }

  lemma {:induction false} ChunksKeepLimit(w: ExitWorld, remaining: int, maxChunk: int, orders: seq<int>, f: ExitFilters)
    requires f.Valid()
    ensures ChunksRun(w, remaining, maxChunk, orders, f).0.limit == w.limit
    decreases remaining
  {
    hide RoundDown;
    if !Untradable(f, remaining, maxChunk) {
      var (after, filled) := MarketRun(w, RoundDown(MinInt(remaining, maxChunk), f.MStep()));
      if filled.Ok? && filled.value > 0 {
        ChunksKeepLimit(after, remaining - filled.value, maxChunk, orders + [filled.value], f);
      }
    }
  }

  lemma AnsweredRemainder(w: ExitWorld, position: int, latest: ExitOrder, f: ExitFilters)
    requires f.Valid() && w.limit == Some(latest) && Answering(w.replies)
    ensures var (after, r) := RemainderRun(w, position, latest, f);
            && Answering(after.replies) && after.limit.Some?
            && (r.Err? ==>
                  var left := after.limit.value.quantity - after.limit.value.filled;
                  && left > 0
                  && if after.chunks == w.chunks then r.error == BelowMinimum && NothingToOrder(f, MinInt(left, position))
                     else r.error == NoFill)
  {
    hide CloseRun, NothingToOrder;
    if latest.quantity - latest.filled > 0 {
      var (after, ended) := EndRun(w, latest);
      AnsweredClose(after, position, ended.value.quantity - ended.value.filled, f);
    }
  }

  class ExitExecutionManager {
    const limitTimeoutSeconds: int
    const pollSeconds: int

    constructor (limitTimeoutSeconds: int, pollSeconds: int)
      requires pollSeconds >= 1
      ensures this.limitTimeoutSeconds == limitTimeoutSeconds && this.pollSeconds == pollSeconds
    {
      this.limitTimeoutSeconds, this.pollSeconds := limitTimeoutSeconds, pollSeconds;
    }

    /** Watch the limit exit until it is over or its time is up. */
    method WatchLimit(venue: ExitVenue, first: ExitOrder) returns (r: Result<ExitOrder, ExitError>)
      requires venue.Valid() && venue.limit == Some(first) && pollSeconds >= 1
      requires first.status.Created? ==> venue.unknownSeen
      modifies venue`replies, venue`limit, venue`unknownSeen, venue`survivedCancel
      ensures (venue.Now(), r) == WatchRun(old(venue.Now()), first, 0, limitTimeoutSeconds, pollSeconds)
      ensures venue.Valid() && venue.limit.Some? && venue.limit.value.quantity == first.quantity
      ensures r.Ok? ==> venue.limit == Some(r.value) && (r.value.status.Created? ==> venue.unknownSeen)
      ensures old(venue.unknownSeen) ==> venue.unknownSeen
      ensures venue.survivedCancel == old(venue.survivedCancel)
    {
      var latest, elapsed := first, 0;
      while elapsed < limitTimeoutSeconds && Unfinished(latest)
        invariant venue.Valid() && venue.limit == Some(latest) && latest.quantity == first.quantity
        invariant WatchRun(venue.Now(), latest, elapsed, limitTimeoutSeconds, pollSeconds)
                  == WatchRun(old(venue.Now()), first, 0, limitTimeoutSeconds, pollSeconds)
        invariant latest.status.Created? ==> venue.unknownSeen
        invariant old(venue.unknownSeen) ==> venue.unknownSeen
        invariant venue.survivedCancel == old(venue.survivedCancel)
        decreases limitTimeoutSeconds - elapsed
      {
        elapsed := elapsed + MinInt(pollSeconds, limitTimeoutSeconds - elapsed);
        var report := venue.GetOrder(false);
        if report.Err? {
          return Err(report.error);
        }
        latest := report.value;
      }
      return Ok(latest);
    }

    /** End the limit order if it still works, and learn how much it closed. */
    method EndLimit(venue: ExitVenue, latest: ExitOrder) returns (r: Result<ExitOrder, ExitError>)
      requires venue.Valid() && venue.limit == Some(latest)
      requires latest.status.Created? ==> venue.unknownSeen
      modifies venue`replies, venue`limit, venue`unknownSeen, venue`survivedCancel, venue`flatSeen
      ensures (venue.Now(), r) == EndRun(old(venue.Now()), latest)
      ensures venue.Valid() && LimitProgress(old(venue.limit), venue.limit)
      ensures venue.Valid() && venue.limit.Some? && venue.limit.value.quantity == latest.quantity
      ensures r.Ok? ==> venue.limit == Some(r.value)
      ensures r.Ok? && !venue.unknownSeen && !venue.survivedCancel ==> !Working(r.value.status)
      ensures old(venue.unknownSeen) ==> venue.unknownSeen
      ensures old(venue.survivedCancel) ==> venue.survivedCancel
    {
      if !Unfinished(latest) {
        return Ok(latest);
      }
      r := venue.CancelOrder();
      if r.Err? {
        r := venue.GetOrder(true);
      }
    }

    /** Close at market what the limit order did not. */
    method CloseRemainder(venue: ExitVenue, position: int, latest: ExitOrder, f: ExitFilters)
      returns (r: Result<(ExitOrder, seq<int>), ExitError>)
      requires venue.Valid() && venue.limit == Some(latest) && venue.marketSold == 0 && f.Valid()
      requires latest.status.Created? ==> venue.unknownSeen
      requires latest.quantity <= position
      modifies venue`replies, venue`limit, venue`unknownSeen, venue`survivedCancel, venue`flatSeen, venue`marketSold,
               venue`chunks
      ensures (venue.Now(), r) == RemainderRun(old(venue.Now()), position, latest, f)
      ensures venue.Valid() && venue.limit.Some? && venue.limit.value.quantity == latest.quantity
      ensures latest.filled <= venue.limit.value.filled
      ensures !venue.unknownSeen && !venue.survivedCancel ==> venue.Committed() <= latest.quantity
      ensures r.Ok? ==>
                && venue.limit == Some(r.value.0)
                && Sum(r.value.1) == venue.marketSold
                && var left := r.value.0.quantity - r.value.0.filled;
                   left == 0 || Residue(f, left, venue.marketSold)
      ensures r.Ok? && !venue.unknownSeen && !venue.survivedCancel && r.value.0.filled < r.value.0.quantity ==>
                !Working(r.value.0.status)
    {
      hide EndRun, CloseRun, RoundDown, OnStep;
      if latest.quantity - latest.filled <= 0 {
        return Ok((latest, []));
      }
      var ended := EndLimit(venue, latest);
      if ended.Err? {
        return Err(ended.error);
      }
      var left := ended.value.quantity - ended.value.filled;
      if left <= 0 {
        return Ok((ended.value, []));
      }
      var closed := ClosePositionQuantityMarketOrders(venue, position, left, f);
      if closed.Err? {
        return Err(closed.error);
      }
      return Ok((ended.value, closed.value));
    }

    /** Drop protection after a full exit that a fresh read confirms, targets after a partial one. */
    method CleanUp(venue: ExitVenue, position: int, quantity: int, totalFilled: int) returns (ok: bool)
      modifies venue`replies, venue`flatSeen, venue`protectionCancelled, venue`cancelledBlindly, venue`targetsCancelled
      ensures (venue.Now(), ok) == CleanUpRun(old(venue.Now()), position, quantity, totalFilled)
      ensures venue.cancelledBlindly == old(venue.cancelledBlindly)
      ensures venue.protectionCancelled == (|| old(venue.protectionCancelled)
                                            || (totalFilled > 0 && totalFilled >= quantity >= position && venue.flatSeen))
      ensures venue.targetsCancelled == (old(venue.targetsCancelled) || (totalFilled > 0 && quantity < position))
    {
      ok := true;
      if totalFilled > 0 {
        if quantity >= position {
          if totalFilled >= quantity {
            var flat := venue.ReadFlat();
            if flat == Ok(true) {
              ok := venue.CancelPositionProtection();
            }
          }
        } else {
          ok := venue.CancelTakeProfits();
        }
      }
    }

    /** Close the rest of the watched order and drop what it leaves behind. */
    method Finish(venue: ExitVenue, position: int, latest: ExitOrder, f: ExitFilters)
      returns (r: Result<ExitReport, ExitError>, ghost watched: Option<ExitOrder>)
      requires venue.Valid() && venue.limit == Some(latest) && venue.marketSold == 0 && f.Valid()
      requires latest.status.Created? ==> venue.unknownSeen
      requires 0 < latest.quantity <= position && !venue.protectionCancelled
      modifies venue
      ensures (venue.Now(), r) == FinishRun(old(venue.Now()), position, latest.quantity, latest, f)
      ensures venue.Valid() && venue.limit.Some? && venue.limit.value.quantity == latest.quantity
      ensures venue.cancelledBlindly == old(venue.cancelledBlindly)
      ensures !venue.unknownSeen && !venue.survivedCancel ==> venue.Committed() <= latest.quantity
      ensures latest.quantity < position || watched.None? ==> !venue.protectionCancelled
      ensures watched.Some? && !venue.unknownSeen && !venue.survivedCancel ==>
                && latest == watched.value && latest.filled <= venue.limit.value.filled
                && (venue.protectionCancelled <==>
                    && latest.quantity == position
                    && venue.limit.value.filled + venue.marketSold == position
                    && venue.limit.value.filled == latest.filled
                    && venue.flatSeen)
      ensures r.Ok? ==>
                && r.value.Orders? && watched.Some?
                && var left := r.value.limit.quantity - r.value.limit.filled;
                && venue.limit == Some(r.value.limit)
                && Sum(r.value.market) == venue.marketSold
                && (left == 0 || Residue(f, left, venue.marketSold))
                && (!venue.unknownSeen && !venue.survivedCancel && left > 0 ==> !Working(r.value.limit.status))
    {
      hide RemainderRun, CleanUpRun, Sum, Residue;
      watched := None;
      var closed := CloseRemainder(venue, position, latest, f);
      if closed.Err? {
        r := Err(closed.error);
        return;
      }
      watched := Some(latest);
      var cleaned := CleanUp(venue, position, latest.quantity, latest.filled + Sum(closed.value.1));
      r := if cleaned then Ok(Orders(closed.value.0, closed.value.1)) else Err(RequestFailed);
    }

    /** A rejected exit of a position that is already gone counts as done. */
    method AfterRejection(venue: ExitVenue, error: ExitError) returns (r: Result<ExitReport, ExitError>)
      modifies venue`replies, venue`flatSeen, venue`protectionCancelled, venue`cancelledBlindly
      ensures (venue.Now(), r) == RejectedRun(old(venue.Now()), error)
      ensures error != FlatRejection ==> venue.Now() == old(venue.Now())
      ensures venue.cancelledBlindly == old(venue.cancelledBlindly)
      ensures r.Ok? ==> r == Ok(AlreadyFlat) && error == FlatRejection && venue.flatSeen && venue.protectionCancelled
    {
      if error == FlatRejection {
        var flat := venue.ReadFlat();
        if flat == Ok(true) {
          var cleaned := venue.CancelPositionProtection();
          return if cleaned then Ok(AlreadyFlat) else Err(RequestFailed);
        }
      }
      return Err(error);
    }

    /**
      Close `requested` of a position.  Unless a report used an unknown status word, or the
      order outlived a failed cancellation, no more than `requested` nor than the position is
      ever closed, whatever fails; protection is cancelled only when a read made after the last
      order showed the position flat; a partial exit never touches the stop; and a normal return
      leaves at most a market-untradable rest of the normalised quantity open.

      `watched` is the last report before the limit order was ended, if the rest could then be
      closed.  Protection is cancelled exactly after a full exit with nothing left, a flat read,
      and no fill between that report and the cancellation of the limit order.
     */
    method Execute(venue: ExitVenue, position: int, requested: int, f: ExitFilters)
      returns (r: Result<ExitReport, ExitError>, ghost watched: Option<ExitOrder>)
      requires venue.Valid() && venue.limit.None? && venue.marketSold == 0
      requires !venue.unknownSeen && !venue.survivedCancel && !venue.cancelledBlindly && !venue.protectionCancelled
      requires f.Valid() && position > 0 && pollSeconds >= 1
      modifies venue
      ensures (venue.Now(), r) == ExecuteRun(old(venue.Now()), position, requested, f, limitTimeoutSeconds, pollSeconds)
      ensures watched.None? && venue.limit.Some? ==> !venue.protectionCancelled
      ensures watched.Some? && !venue.unknownSeen && !venue.survivedCancel ==>
                && venue.limit.Some? && watched.value.filled <= venue.limit.value.filled
                && venue.limit.value.quantity == watched.value.quantity
                && (venue.protectionCancelled <==>
                    && venue.limit.value.quantity == position
                    && venue.limit.value.filled + venue.marketSold == position
                    && venue.limit.value.filled == watched.value.filled
                    && venue.flatSeen)
      ensures !venue.unknownSeen && !venue.survivedCancel ==>
                venue.Committed() <= if requested <= 0 then 0 else MinInt(requested, position)
      ensures !venue.cancelledBlindly
      ensures requested < position && r.Ok? && r.value.Orders? ==> !venue.protectionCancelled
      ensures r == Ok(AlreadyFlat) ==> venue.Committed() == 0 && venue.protectionCancelled
      ensures r.Ok? && r.value.Orders? ==>
                var left := r.value.limit.quantity - r.value.limit.filled;
                && venue.limit == Some(r.value.limit)
                && RoundDown(MinInt(requested, position), f.step) == r.value.limit.quantity
                && Sum(r.value.market) == venue.marketSold
                && (left == 0 || Residue(f, left, venue.marketSold))
                && (!venue.unknownSeen && !venue.survivedCancel && left > 0 ==> !Working(r.value.limit.status))
    {
      hide PlaceRun, WatchRun, FinishRun, RejectedRun, RoundDown, Sum, Residue;
      watched := None;
      var quantity := MinInt(requested, position);
      if quantity <= 0 {
        r := Err(NotPositive);
        return;
      }
      var placed := venue.PlaceLimitExit(quantity, f);
      if placed.Err? {
        r := AfterRejection(venue, placed.error);
        return;
      }
      var report := WatchLimit(venue, placed.value);
      if report.Err? {
        r := Err(report.error);
        return;
      }
      r, watched := Finish(venue, position, report.value, f);
    }
  }

  /** After selling `sold` of `left` at market, the market-step part that remains cannot be traded. */
  predicate Residue(f: ExitFilters, left: int, sold: int)
    requires f.Valid()
  {
    var target := RoundDown(left, f.MStep());
    Untradable(f, target - sold, if f.marketMax.Some? then f.marketMax.value else target)
  }

  const PLAIN_FILTERS := ExitFilters(1, 1, None, None, None)

  /** One market order that fills at once. */
  lemma OneChunk(w: ExitWorld, quantity: int, position: int)
    requires 0 < quantity <= position
    requires NextReply(w.replies) == ExitReply(true, true, quantity, Filled, false)
    ensures CloseRun(w, position, quantity, PLAIN_FILTERS)
            == (Asked(w).(flatSeen := false, chunks := w.chunks + [quantity], marketSold := w.marketSold + quantity),
                Ok([quantity]))
  {
    var after := MarketRun(w, quantity).0;
    assert RoundDown(quantity, 1) == quantity;
    assert [] + [quantity] == [quantity];
    assert ChunksRun(after, 0, quantity, [quantity], PLAIN_FILTERS) == (after, Ok([quantity]));
  }

  lemma RoundByOne(q: int)
    ensures RoundDown(q, 1) == q
  {
  }

  /** The exchange before anything happened. */
  function FreshExit(replies: seq<ExitReply>): ExitWorld {
    ExitWorld(None, 0, [], false, false, false, false, false, false, replies)
  }

  /**
    A position that was closed in full and keeps its protection: 4 of 10 are reported filled, 3 more
    fill before the cancellation, and 3 are sold at market.
   */
  lemma UnseenFillKeepsProtection()
    ensures var script := [ExitReply(true, true, 0, Submitted, false), ExitReply(true, true, 4, PartiallyFilled, false),
                           ExitReply(true, true, 7, PartiallyFilled, false), ExitReply(true, true, 3, Filled, false)];
            var (end, r) := ExecuteRun(FreshExit(script), 10, 10, PLAIN_FILTERS, 1, 1);
            && r == Ok(Orders(ExitOrder(10, 7, Canceled), [3]))
            && end.marketSold == 3 && end.replies == []
            && !end.protectionCancelled && !end.unknownSeen && !end.survivedCancel
  {
    hide CloseRun, RoundDown, WatchRun, EndRun, PlaceRun, Sum;
    var replies := [ExitReply(true, true, 0, Submitted, false), ExitReply(true, true, 4, PartiallyFilled, false),
                    ExitReply(true, true, 7, PartiallyFilled, false), ExitReply(true, true, 3, Filled, false)];
    SubmittedTen(replies);
    SeenAtFour(replies[1..]);
    CancelledAtSeven(replies[2..]);
    var ended := FreshExit(replies[3..]).(limit := Some(ExitOrder(10, 7, Canceled)));
    assert replies[2..][1..] == replies[3..] && replies[1..][1..] == replies[2..];
    OneChunk(ended, 3, 10);
    SumSnoc([], 3);
    assert [] + [3] == [3] && Rest(replies[3..]) == [];
  }

  lemma SubmittedTen(replies: seq<ExitReply>)
    requires replies != [] && replies[0] == ExitReply(true, true, 0, Submitted, false)
    ensures PlaceRun(FreshExit(replies), 10, PLAIN_FILTERS) ==
            (FreshExit(replies[1..]).(limit := Some(ExitOrder(10, 0, Submitted))), Ok(ExitOrder(10, 0, Submitted)))
  {
    RoundByOne(10);
    hide RoundDown;
  }

  lemma SeenAtFour(replies: seq<ExitReply>)
    requires replies != [] && replies[0] == ExitReply(true, true, 4, PartiallyFilled, false)
    ensures WatchRun(FreshExit(replies).(limit := Some(ExitOrder(10, 0, Submitted))), ExitOrder(10, 0, Submitted), 0, 1, 1) ==
            (FreshExit(replies[1..]).(limit := Some(ExitOrder(10, 4, PartiallyFilled))), Ok(ExitOrder(10, 4, PartiallyFilled)))
  {
  }

  lemma CancelledAtSeven(replies: seq<ExitReply>)
    requires replies != [] && replies[0] == ExitReply(true, true, 7, PartiallyFilled, false)
    ensures var last := ExitOrder(10, 4, PartiallyFilled);
            EndRun(FreshExit(replies).(limit := Some(last)), last) ==
            (FreshExit(replies[1..]).(limit := Some(ExitOrder(10, 7, Canceled))), Ok(ExitOrder(10, 7, Canceled)))
  {
  }
}
