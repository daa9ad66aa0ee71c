/**
  Entering a position with a limit order that is watched, protected as it fills, and
  cancelled and re-priced a bounded number of times.  The exchange is an adversary that may
  fill, end or reject orders and fail requests at any moment.
 */
module EntryExecution {
  import opened Common

  datatype OrderStatus = Created | Submitted | PartiallyFilled | Filled | Canceled | Rejected | Expired

  /** `Created` is what the adapter reports for a status word it does not know. */
  predicate Working(s: OrderStatus) {
    s.Created? || s.Submitted? || s.PartiallyFilled?
  }

  datatype EntryOrder = EntryOrder(price: real, quantity: real, filled: real, averagePrice: real, status: OrderStatus)

  datatype EntryIntent = EntryIntent(quantity: real, entryMin: real, entryMax: real, limitPrice: real, stop: real)

  datatype EntryError =
    | NotSubmitted        // nothing was bought or sold
    | UnknownStatus       // a write may or may not have happened
    | ExchangeFailure
    | ProtectionFailure   // fills could not be protected; their close was accepted
    | CloseFailure        // fills could not be protected; their close failed too

  function TotalFilled(orders: seq<EntryOrder>): real {
    if orders == [] then 0.0 else TotalFilled(orders[..|orders| - 1]) + orders[|orders| - 1].filled
  }

  /** All orders but the last are over and got nothing. */
  predicate OthersIdle(orders: seq<EntryOrder>) {
    forall i :: 0 <= i < |orders| - 1 ==> !Working(orders[i].status) && orders[i].filled == 0.0
  }

  predicate AllIdle(orders: seq<EntryOrder>) {
    forall i :: 0 <= i < |orders| ==> !Working(orders[i].status) && orders[i].filled == 0.0
  }

  predicate AtMostOneWorking(orders: seq<EntryOrder>) {
    forall i, j :: 0 <= i < j < |orders| ==> !Working(orders[i].status) || !Working(orders[j].status)
  }

  predicate NoneWorking(orders: seq<EntryOrder>) {
    forall i :: 0 <= i < |orders| ==> !Working(orders[i].status)
  }

  lemma {:induction false} IdleTotal(orders: seq<EntryOrder>)
    requires AllIdle(orders)
    ensures TotalFilled(orders) == 0.0
  {
    if orders != [] {
      IdleTotal(orders[..|orders| - 1]);
    }
  }

  lemma LastTotal(orders: seq<EntryOrder>)
    requires orders != [] && OthersIdle(orders)
    ensures TotalFilled(orders) == orders[|orders| - 1].filled
  {
    IdleTotal(orders[..|orders| - 1]);
  }

  /** What may happen to an order while nobody writes: fills only grow, an order that is over stays as it is. */
  predicate Progress(o: EntryOrder, o': EntryOrder) {
    && o'.price == o.price && o'.quantity == o.quantity
    && o.filled <= o'.filled <= o.quantity
    && (!Working(o.status) ==> o' == o)
  }

  predicate AllProgress(a: seq<EntryOrder>, b: seq<EntryOrder>) {
    |a| == |b| && forall i :: 0 <= i < |a| ==> Progress(a[i], b[i])
  }

  predicate SaneOrders(orders: seq<EntryOrder>) {
    forall i :: 0 <= i < |orders| ==> 0.0 <= orders[i].filled <= orders[i].quantity
  }

  /** A request that went wrong. */
  datatype Failure =
    | Unconfigured(error: EntryError)
    | Unquoted(error: EntryError)
    | Unplaced(error: EntryError)
    | Unread
    | Uncancelled
    | Unprotected
    | Unclosed      // neither protected nor closed

  /** The failure as it is reported: before anything was placed a known failure means that nothing was submitted. */
  function ErrorOf(f: Failure): EntryError {
    match f
    case Unconfigured(error) => if error.UnknownStatus? then UnknownStatus else NotSubmitted
    case Unquoted(error) => if error.UnknownStatus? then UnknownStatus else NotSubmitted
    case Unplaced(error) => error
    case Unread => ExchangeFailure
    case Uncancelled => ExchangeFailure
    case Unprotected => ProtectionFailure
    case Unclosed => CloseFailure
  }

  datatype Placement = Placement(price: real, quantity: real, answer: Result<EntryOrder, EntryError>)

  /** What was asked of the exchange, the clock and the operator, and what they answered. */
  datatype Journal = Journal(
    clock: seq<bool>,                        // whether the intent had expired
    guards: seq<bool>,                       // whether entries were allowed
    quotes: seq<Result<real, EntryError>>,
    placements: seq<Placement>,
    reports: seq<EntryOrder>,                // answers to placements and polls
    latest: EntryOrder,                      // the order in the latest answer of any kind
    waited: int,                             // seconds
    cancels: nat,                            // cancellations requested
    average: real,                           // entry price the latest accepted protection is for
    failed: Option<Failure>)

  const BLANK := Journal([], [], [], [], [], EntryOrder(0.0, 0.0, 0.0, 0.0, Created), 0, 0, 0.0, None)

  /** Every answer but perhaps the last is `usual`. */
  predicate AllBefore(answers: seq<bool>, usual: bool) {
    forall i :: 0 <= i < |answers| - 1 ==> answers[i] == usual
  }

  predicate LastIs(answers: seq<bool>, answer: bool) {
    answers != [] && answers[|answers| - 1] == answer
  }

  predicate LastFilled(reports: seq<EntryOrder>) {
    reports != [] && reports[|reports| - 1].status.Filled?
  }

  class EntryVenue {
    /** The orders of one intent, one per attempt. */
    var orders: seq<EntryOrder>
    /** Quantity covered by the latest protection set the exchange accepted. */
    ghost var protectedQuantity: real
    /** Quantities for which an emergency close was requested. */
    ghost var closeRequests: seq<real>
    ghost var log: Journal
    /** Some order report carried a status the adapter does not know. */
    ghost var unknownSeen: bool
    /** An order was accepted while another one still worked. */
    ghost var overlapped: bool

    constructor ()
      ensures Untouched()
    {
      orders, protectedQuantity, closeRequests, log, unknownSeen, overlapped := [], 0.0, [], BLANK, false, false;
    }

    /** Nothing was asked yet. */
    ghost predicate Untouched()
      reads this
    {
      && orders == [] && protectedQuantity == 0.0 && closeRequests == [] && log == BLANK
      && !unknownSeen && !overlapped
    }

    ghost predicate Valid()
      reads this
    {
      SaneOrders(orders)
    }

    /** Time passes at the exchange. */
    method Drift()
      requires Valid()
      modifies this`orders
      ensures Valid() && AllProgress(old(orders), orders)
    {
      ghost var before := orders;
      for i := 0 to |orders|
        invariant SaneOrders(orders) && AllProgress(before, orders)
        invariant forall j :: i <= j < |orders| ==> orders[j] == before[j]
      {
        var filled: real := *;
        var average: real := *;
        var status: OrderStatus := *;
        var o := orders[i];
        if Working(o.status) && o.filled <= filled <= o.quantity {
          orders := orders[i := o.(filled := filled, averagePrice := average, status := status)];
        }
      }
    }

    /** Whether the operator still allows entries. */
    method EntriesAllowed() returns (allowed: bool)
      requires Valid()
      modifies this`orders, this`log
      ensures Valid() && AllProgress(old(orders), orders)
      ensures log == old(log).(guards := old(log).guards + [allowed])
    {
      Drift();
      allowed := *;
      log := log.(guards := log.guards + [allowed]);
    }

    /** Whether the intent has expired by now. */
    method Expired() returns (late: bool)
      requires Valid()
      modifies this`orders, this`log
      ensures Valid() && AllProgress(old(orders), orders)
      ensures log == old(log).(clock := old(log).clock + [late])
    {
      Drift();
      late := *;
      log := log.(clock := log.clock + [late]);
    }

    method Sleep(seconds: int)
      requires Valid()
      modifies this`orders, this`log
      ensures Valid() && AllProgress(old(orders), orders)
      ensures log == old(log).(waited := old(log).waited + seconds)
    {
      Drift();
      log := log.(waited := log.waited + seconds);
    }

    /** Margin type and leverage of the symbol. */
    method ConfigureSymbol() returns (r: Result<bool, EntryError>)
      requires Valid()
      modifies this`orders, this`log
      ensures Valid() && AllProgress(old(orders), orders)
      ensures r.Err? ==> r.error == UnknownStatus || r.error == ExchangeFailure
      ensures log == if r.Ok? then old(log) else old(log).(failed := Some(Unconfigured(r.error)))
    {
      Drift();
      var answered: bool := *;
      var known: bool := *;
      if answered {
        return Ok(true);
      }
      r := Err(if known then ExchangeFailure else UnknownStatus);
      log := log.(failed := Some(Unconfigured(r.error)));
    }

    /** A quote for the entry price. */
    method BestPrice() returns (r: Result<real, EntryError>)
      requires Valid()
      modifies this`orders, this`log
      ensures Valid() && AllProgress(old(orders), orders)
      ensures r.Err? ==> r.error == UnknownStatus || r.error == ExchangeFailure
      ensures log == old(log).(quotes := old(log).quotes + [r],
                               failed := if r.Ok? then old(log).failed else Some(Unquoted(r.error)))
    {
      Drift();
      var answered: bool := *;
      var known: bool := *;
      var price: real := *;
      r := if answered then Ok(price) else Err(if known then ExchangeFailure else UnknownStatus);
      log := log.(quotes := log.quotes + [r], failed := if r.Ok? then log.failed else Some(Unquoted(r.error)));
    }

    /** `NotSubmitted` stands for an explicit 4xx rejection: the exchange did not take the order. */
    method PlaceLimitEntry(price: real, quantity: real) returns (r: Result<EntryOrder, EntryError>)
      requires Valid() && quantity > 0.0
      modifies this`orders, this`log, this`unknownSeen, this`overlapped
      ensures Valid()
      ensures NoneWorking(old(orders)) ==> overlapped == old(overlapped)
      ensures old(overlapped) || (|orders| > |old(orders)| && !NoneWorking(orders[..|old(orders)|])) ==> overlapped
      ensures |old(orders)| <= |orders| <= |old(orders)| + 1
      ensures AllProgress(old(orders), orders[..|old(orders)|])
      ensures |orders| > |old(orders)| ==>
                orders[|old(orders)|].price == price && orders[|old(orders)|].quantity == quantity
      ensures r.Ok? ==> |orders| == |old(orders)| + 1 && r.value == orders[|old(orders)|]
      ensures r == Err(NotSubmitted) ==> |orders| == |old(orders)|
      ensures r.Err? ==> r.error == NotSubmitted || r.error == UnknownStatus || r.error == ExchangeFailure
      ensures unknownSeen == (old(unknownSeen) || (r.Ok? && r.value.status.Created?))
      ensures log == AfterPlacement(old(log), price, quantity, r)
    {
      Drift();
      var accepted: bool := *;
      var answered: bool := *;
      if accepted {
        ghost var before := orders;
        overlapped := overlapped || !NoneWorking(orders);
        orders := orders + [EntryOrder(price, quantity, 0.0, 0.0, Submitted)];
        ghost var placed := orders;
        Drift();
        assert forall i :: 0 <= i < |before| ==> Progress(before[i], placed[i]) && Progress(placed[i], orders[i]);
        if answered {
          var o := orders[|orders| - 1];
          log := AfterPlacement(log, price, quantity, Ok(o));
          unknownSeen := unknownSeen || o.status.Created?;
          return Ok(o);
        }
      }
      var known: bool := *;
      r := Err(if !accepted && answered then NotSubmitted else if known then ExchangeFailure else UnknownStatus);
      log := AfterPlacement(log, price, quantity, r);
    }

    method GetOrder(attempt: nat) returns (r: Result<EntryOrder, EntryError>)
      requires Valid() && attempt < |orders|
      modifies this`orders, this`log, this`unknownSeen
      ensures Valid() && AllProgress(old(orders), orders)
      ensures r.Ok? ==> r.value == orders[attempt]
      ensures r.Err? ==> r.error == ExchangeFailure
      ensures unknownSeen == (old(unknownSeen) || (r.Ok? && r.value.status.Created?))
      ensures log == if r.Ok? then old(log).(reports := old(log).reports + [r.value], latest := r.value)
                     else old(log).(failed := Some(Unread))
    {
      Drift();
      var answered: bool := *;
      if !answered {
        log := log.(failed := Some(Unread));
        return Err(ExchangeFailure);
      }
      log := log.(reports := log.reports + [orders[attempt]], latest := orders[attempt]);
      unknownSeen := unknownSeen || orders[attempt].status.Created?;
      return Ok(orders[attempt]);
    }

    /** A cancellation that is answered ends the order; one that is not may have. */
    method CancelOrder(attempt: nat) returns (r: Result<EntryOrder, EntryError>)
      requires Valid() && attempt < |orders|
      modifies this`orders, this`log
      ensures Valid() && AllProgress(old(orders), orders)
      ensures r.Ok? ==> r.value == orders[attempt] && !Working(r.value.status)
      ensures r.Err? ==> r.error == ExchangeFailure
      ensures log == if r.Ok? then old(log).(cancels := old(log).cancels + 1, latest := r.value)
                     else old(log).(cancels := old(log).cancels + 1, failed := Some(Uncancelled))
    {
      Drift();
      var answered: bool := *;
      var effective: bool := *;
      ghost var before := orders;
      if (answered || effective) && Working(orders[attempt].status) {
        orders := orders[attempt := orders[attempt].(status := Canceled)];
      }
      assert AllProgress(before, orders);
      log := log.(cancels := log.cancels + 1);
      if !answered {
        log := log.(failed := Some(Uncancelled));
        return Err(ExchangeFailure);
      }
      log := log.(latest := orders[attempt]);
      return Ok(orders[attempt]);
    }

    method UpsertProtection(quantity: real, averagePrice: real) returns (ok: bool)
      requires Valid()
      modifies this`orders, this`protectedQuantity, this`log
      ensures Valid() && AllProgress(old(orders), orders)
      ensures protectedQuantity == if ok then quantity else old(protectedQuantity)
      ensures log == if ok then old(log).(average := averagePrice) else old(log).(failed := Some(Unprotected))
    {
      Drift();
      ok := *;
      if ok {
        protectedQuantity := quantity;
        log := log.(average := averagePrice);
      } else {
        log := log.(failed := Some(Unprotected));
      }
    }

    method ClosePositionMarket(quantity: real) returns (ok: bool)
      requires Valid()
      modifies this`orders, this`closeRequests, this`log
      ensures Valid() && AllProgress(old(orders), orders)
      ensures closeRequests == old(closeRequests) + [quantity]
      ensures log == if ok then old(log) else old(log).(failed := Some(Unclosed))
    {
      closeRequests := closeRequests + [quantity];
      Drift();
      ok := *;
      if !ok {
        log := log.(failed := Some(Unclosed));
      }
    }
  }

  function AfterPlacement(log: Journal, price: real, quantity: real, r: Result<EntryOrder, EntryError>): Journal {
    var noted := log.(placements := log.placements + [Placement(price, quantity, r)]);
    match r
    case Ok(order) => noted.(reports := log.reports + [order], latest := order)
    case Err(error) => noted.(failed := Some(Unplaced(error)))
  }

  class ExecutionManager {
    const venue: EntryVenue
    const repriceSeconds: int
    const maxReprices: int
    const fillPollSeconds: int

    /** The polling loop needs a positive interval; with none it would spin for ever. */
    constructor (venue: EntryVenue, repriceSeconds: int, maxReprices: int, fillPollSeconds: int)
      requires fillPollSeconds >= 1
      ensures this.venue == venue && this.fillPollSeconds == fillPollSeconds
      ensures this.repriceSeconds == repriceSeconds && this.maxReprices == maxReprices
    {
      this.venue := venue;
      this.repriceSeconds, this.maxReprices, this.fillPollSeconds := repriceSeconds, maxReprices, fillPollSeconds;
    }

    /** Every order was placed inside the approved band and for the approved quantity. */
    ghost predicate Approved(intent: EntryIntent)
      reads venue
    {
      && venue.Valid()
      && forall i :: 0 <= i < |venue.orders| ==>
                       && intent.entryMin <= venue.orders[i].price <= intent.entryMax
                       && venue.orders[i].quantity == intent.quantity
    }

    /** `view` is the last report about the newest order; what it fills is protected. */
    ghost predicate Tracking(intent: EntryIntent, view: EntryOrder, protectedQuantity: real)
      reads venue
    {
      && Approved(intent) && venue.orders != []
      && protectedQuantity == venue.protectedQuantity
      && venue.log.latest == view
      && (view.status.Created? ==> venue.unknownSeen)
      && (!venue.unknownSeen ==>
            && OthersIdle(venue.orders)
            && Seen(venue.orders[|venue.orders| - 1], view)
            && protectedQuantity <= view.filled)
    }

    /** All fills in the last report are protected. */
    ghost predicate Covered(intent: EntryIntent, view: EntryOrder, protectedQuantity: real)
      reads venue
    {
      && Tracking(intent, view, protectedQuantity)
      && view.filled <= protectedQuantity
      && (!venue.unknownSeen ==> protectedQuantity == view.filled)
    }

    /** Nothing is working any more and protection covers exactly what was filled. */
    ghost predicate Settled(view: EntryOrder)
      reads venue
    {
      && view == venue.log.latest
      && view.filled <= venue.protectedQuantity
      && (!venue.unknownSeen ==>
        && NoneWorking(venue.orders)
        && view.filled == TotalFilled(venue.orders)
        && venue.protectedQuantity == view.filled)
    }

    /** The journal ends with the failure that is reported. */
    ghost predicate Blamed(error: EntryError, before: Journal)
      reads venue
    {
      && venue.log.failed.Some? && error == ErrorOf(venue.log.failed.value)
      && venue.log.guards == before.guards && venue.log.clock == before.clock
      && venue.log.quotes == before.quotes && venue.log.placements == before.placements
    }

    /** An attempt is over without fills. */
    ghost predicate Resting(order: EntryOrder, protectedQuantity: real)
      reads venue
    {
      && protectedQuantity == venue.protectedQuantity && order.filled <= protectedQuantity
      && (!venue.unknownSeen ==> AllIdle(venue.orders) && protectedQuantity == order.filled == 0.0)
    }

    method StillAllowed(intent: EntryIntent, ghost view: EntryOrder, protectedQuantity: real) returns (allowed: bool)
      requires Covered(intent, view, protectedQuantity)
      modifies venue`orders, venue`log
      ensures Covered(intent, view, protectedQuantity) && |venue.orders| == |old(venue.orders)|
      ensures venue.log == old(venue.log).(guards := old(venue.log).guards + [allowed])
    {
      allowed := venue.EntriesAllowed();
    }

    method ProtectNewFills(intent: EntryIntent, order: EntryOrder,
                           protectedQuantity: real) returns (r: Result<real, EntryError>)
      requires Tracking(intent, order, protectedQuantity)
      modifies venue
      ensures Tracking(intent, order, venue.protectedQuantity)
      ensures venue.unknownSeen == old(venue.unknownSeen) && |venue.orders| == |old(venue.orders)|
      ensures venue.overlapped == old(venue.overlapped)
      ensures r.Ok? ==> r.value == venue.protectedQuantity == Max(protectedQuantity, order.filled)
                        && venue.closeRequests == old(venue.closeRequests)
      ensures r.Err? ==>
                && (r.error == ProtectionFailure || r.error == CloseFailure)
                && order.filled > protectedQuantity
                && venue.closeRequests == old(venue.closeRequests) + (if order.filled > 0.0 then [order.filled] else [])
      ensures r.Ok? ==> venue.log == if order.filled <= protectedQuantity then old(venue.log)
                                     else old(venue.log).(average := order.averagePrice)
      ensures r.Err? ==> Blamed(r.error, old(venue.log))
    {
      if order.filled <= protectedQuantity {
        return Ok(protectedQuantity);
      }
      var ok := venue.UpsertProtection(order.filled, order.averagePrice);
      if ok {
        return Ok(order.filled);
      }
      if order.filled > 0.0 {
        var closed := venue.ClosePositionMarket(order.filled);
        if !closed {
          return Err(CloseFailure);
        }
      }
      return Err(ProtectionFailure);
    }

    lemma OverMeansSettled(intent: EntryIntent, view: EntryOrder, protectedQuantity: real)
      requires Covered(intent, view, protectedQuantity)
      requires view.status.Submitted? || view.status.PartiallyFilled? ==> venue.unknownSeen
      ensures Settled(view)
      ensures !(view.filled > 0.0) ==> Resting(view, protectedQuantity)
      ensures Approved(intent) && (!venue.unknownSeen ==> OthersIdle(venue.orders))
    {
      if !venue.unknownSeen {
        LastTotal(venue.orders);
      }
    }

    /** End the newest order and protect what it got. */
    method CancelAndProtect(intent: EntryIntent, ghost view: EntryOrder, protectedQuantity: real)
      returns (r: Result<(EntryOrder, real), EntryError>)
      requires Covered(intent, view, protectedQuantity)
      modifies venue
      ensures Approved(intent) && venue.unknownSeen == old(venue.unknownSeen) && |venue.orders| == |old(venue.orders)|
      ensures venue.overlapped == old(venue.overlapped)
      ensures r.Ok? ==> Covered(intent, r.value.0, r.value.1) && !Working(r.value.0.status)
      ensures r.Ok? ==> venue.log == Cancelled(old(venue.log), r.value.0, venue.log.average)
      ensures r.Err? ==> Blamed(r.error, old(venue.log))
      ensures !venue.unknownSeen ==> OthersIdle(venue.orders)
      ensures r.Err? ==> r.error != NotSubmitted
      ensures Issued(r, old(venue.closeRequests))
    {
      var cancelled := venue.CancelOrder(|venue.orders| - 1);
      if cancelled.Err? {
        return Err(cancelled.error);
      }
      var guarded := ProtectNewFills(intent, cancelled.value, protectedQuantity);
      if guarded.Err? {
        return Err(guarded.error);
      }
      return Ok((cancelled.value, guarded.value));
    }

    /** Wait, read the newest order and protect what it got. */
    method PollAndProtect(intent: EntryIntent, ghost view: EntryOrder, protectedQuantity: real, seconds: int)
      returns (r: Result<(EntryOrder, real), EntryError>)
      requires Covered(intent, view, protectedQuantity)
      modifies venue
      ensures Approved(intent) && |venue.orders| == |old(venue.orders)| && venue.overlapped == old(venue.overlapped)
      ensures old(venue.unknownSeen) ==> venue.unknownSeen
      ensures r.Ok? ==> Covered(intent, r.value.0, r.value.1)
      ensures !venue.unknownSeen ==> OthersIdle(venue.orders)
      ensures r.Ok? ==> venue.log == Polled(old(venue.log), seconds, r.value.0, venue.log.average)
      ensures r.Err? ==> Blamed(r.error, old(venue.log))
      ensures r.Err? ==> r.error != NotSubmitted
      ensures Issued(r, old(venue.closeRequests))
    {
      venue.Sleep(seconds);
      var report := venue.GetOrder(|venue.orders| - 1);
      if report.Err? {
        return Err(report.error);
      }
      var guarded := ProtectNewFills(intent, report.value, protectedQuantity);
      if guarded.Err? {
        return Err(guarded.error);
      }
      return Ok((report.value, guarded.value));
    }

    /** An emergency close is requested exactly when protecting fills failed, and then for all of them. */
    ghost predicate Issued<T>(r: Result<T, EntryError>, before: seq<real>)
      reads venue
    {
      if r.Err? && (r.error == ProtectionFailure || r.error == CloseFailure)
      then venue.closeRequests == before + (if venue.log.latest.filled > 0.0 then [venue.log.latest.filled] else [])
      else venue.closeRequests == before
    }

    /**
      What watching an order comes to, told from the journal `before` and after it.  Polls come
      one interval apart.  They go on while the order is working and entries are allowed, until
      the time is up.  An order that is still open then, or when entries are stopped, is cancelled.
      Only a fill, a FILLED report or stopped entries finish the whole entry.
     */
    predicate Watched(before: Journal, now: Journal, first: EntryOrder, order: EntryOrder, finished: bool) {
      && before.reports <= now.reports && before.guards <= now.guards
      && now == before.(reports := now.reports, guards := now.guards, waited := now.waited, latest := order,
                        cancels := now.cancels, average := now.average)
      && var polls := now.reports[|before.reports|..];
      && var asked := now.guards[|before.guards|..];
      && var last := if polls == [] then first else polls[|polls| - 1];
      && var stopped := LastIs(asked, false);
      && (forall i :: 0 <= i < |polls| - 1 ==> Working(polls[i].status))
      && AllBefore(asked, true)
      && |asked| == (if polls != [] && !Working(last.status) then |polls| - 1 else |polls|)
      && now.waited - before.waited == Waiting(|polls|)
      && (now.waited - before.waited >= repriceSeconds || stopped || (polls != [] && !Working(last.status)))
      && (polls == [] <==> repriceSeconds <= 0)
      && (finished <==> order.filled > 0.0 || LastFilled(polls) || stopped)
      && var open := last.status.Submitted? || last.status.PartiallyFilled?;
      && now.cancels == before.cancels + (if stopped || open then 1 else 0)
      && (stopped || open || order == last)
    }

    /** Seconds slept before so many polls of one order; the last interval may be cut short. */
    function Waiting(polls: nat): int {
      if polls == 0 then 0
      else if polls * fillPollSeconds <= repriceSeconds then polls * fillPollSeconds
      else repriceSeconds
    }

    /** The journal while an order is watched that is still open: every poll found it working. */
    predicate Watching(before: Journal, now: Journal, first: EntryOrder, order: EntryOrder, elapsed: int) {
      && before.reports <= now.reports && before.guards <= now.guards
      && now == before.(reports := now.reports, guards := now.guards, waited := before.waited + elapsed, latest := order,
                        average := now.average)
      && var polls := now.reports[|before.reports|..];
      && var asked := now.guards[|before.guards|..];
      && |asked| == |polls| && (polls != [] ==> repriceSeconds > 0)
      && (forall i :: 0 <= i < |polls| ==> Working(polls[i].status) && asked[i])
      && elapsed == Waiting(|polls|)
      && order == (if polls == [] then first else polls[|polls| - 1])
    }

    /** The seconds to the next poll. */
    function Interval(elapsed: int): int {
      if fillPollSeconds <= repriceSeconds - elapsed then fillPollSeconds else repriceSeconds - elapsed
    }

    /** The journal after one more poll. */
    function Polled(now: Journal, seconds: int, report: EntryOrder, average: real): Journal {
      now.(waited := now.waited + seconds, reports := now.reports + [report], latest := report, average := average)
    }

    function Cancelled(now: Journal, order: EntryOrder, average: real): Journal {
      now.(cancels := now.cancels + 1, latest := order, average := average)
    }

    /** Only the newest of the operator's answers since `before` may have stopped entries. */
    predicate Asked(before: seq<bool>, now: seq<bool>) {
      before <= now && AllBefore(now[|before|..], true)
    }

    lemma WatchingAsked(before: Journal, now: Journal, first: EntryOrder, order: EntryOrder, elapsed: int, allowed: bool)
      requires Watching(before, now, first, order, elapsed)
      ensures Asked(before.guards, now.guards) && Asked(before.guards, now.guards + [allowed])
      ensures SameRequests(before, now)
    {
      assert (now.guards + [allowed])[|before.guards|..] == now.guards[|before.guards|..] + [allowed];
    }

    lemma StopAsked(before: Journal, now: Journal, first: EntryOrder, order: EntryOrder, elapsed: int,
                    seconds: int, report: EntryOrder, average: real)
      requires Watching(before, now, first, order, elapsed)
      ensures var after := Polled(now, seconds, report, average);
              var stopped := after.(guards := after.guards + [false]);
              Asked(before.guards, stopped.guards) && SameRequests(before, stopped)
    {
      WatchingAsked(before, now, first, order, elapsed, false);
    }

    lemma StartsWatching(intent: EntryIntent, first: EntryOrder, protectedQuantity: real)
      requires Covered(intent, first, protectedQuantity)
      ensures Watching(venue.log, venue.log, first, first, 0)
    {
    }

    lemma IntervalAdds(polls: nat, elapsed: int)
      requires fillPollSeconds >= 1 && elapsed < repriceSeconds && elapsed == Waiting(polls)
      requires polls == 0 || repriceSeconds > 0
      ensures elapsed + Interval(elapsed) == Waiting(polls + 1)
    {
      assert (polls + 1) * fillPollSeconds == polls * fillPollSeconds + fillPollSeconds;
    }

    lemma PollEnds(before: Journal, now: Journal, first: EntryOrder, order: EntryOrder, elapsed: int,
                   report: EntryOrder, average: real)
      requires fillPollSeconds >= 1 && elapsed < repriceSeconds && 0 <= elapsed
      requires Watching(before, now, first, order, elapsed) && !Working(report.status)
      ensures Watched(before, Polled(now, Interval(elapsed), report, average), first, report,
                      report.filled > 0.0 || report.status.Filled?)
    {
      var polls := now.reports[|before.reports|..];
      IntervalAdds(|polls|, elapsed);
      var after := Polled(now, Interval(elapsed), report, average);
      assert after.reports[|before.reports|..] == polls + [report];
    }

    lemma PollContinues(before: Journal, now: Journal, first: EntryOrder, order: EntryOrder, elapsed: int,
                        report: EntryOrder, average: real)
      requires fillPollSeconds >= 1 && elapsed < repriceSeconds && 0 <= elapsed
      requires Watching(before, now, first, order, elapsed) && Working(report.status)
      ensures var after := Polled(now, Interval(elapsed), report, average);
              Watching(before, after.(guards := after.guards + [true]), first, report, elapsed + Interval(elapsed))
    {
      var polls := now.reports[|before.reports|..];
      var asked := now.guards[|before.guards|..];
      IntervalAdds(|polls|, elapsed);
      var after := Polled(now, Interval(elapsed), report, average);
      assert after.reports[|before.reports|..] == polls + [report];
      assert (after.guards + [true])[|before.guards|..] == asked + [true];
    }

    lemma PollStops(before: Journal, now: Journal, first: EntryOrder, order: EntryOrder, elapsed: int,
                    report: EntryOrder, average: real, ended: EntryOrder, average': real)
      requires fillPollSeconds >= 1 && elapsed < repriceSeconds && 0 <= elapsed
      requires Watching(before, now, first, order, elapsed) && Working(report.status)
      ensures var after := Polled(now, Interval(elapsed), report, average);
              Watched(before, Cancelled(after.(guards := after.guards + [false]), ended, average'), first, ended, true)
    {
      var polls := now.reports[|before.reports|..];
      var asked := now.guards[|before.guards|..];
      IntervalAdds(|polls|, elapsed);
      var after := Polled(now, Interval(elapsed), report, average);
      assert after.reports[|before.reports|..] == polls + [report];
      assert (after.guards + [false])[|before.guards|..] == asked + [false];
    }

    lemma TimeEnds(before: Journal, now: Journal, first: EntryOrder, order: EntryOrder, elapsed: int,
                   ended: EntryOrder, average: real)
      requires elapsed >= repriceSeconds && Watching(before, now, first, order, elapsed)
      ensures if order.status.Submitted? || order.status.PartiallyFilled?
              then Watched(before, Cancelled(now, ended, average), first, ended, ended.filled > 0.0)
              else Watched(before, now, first, order, order.filled > 0.0)
    {
    }

    /** How watching ends, told from the journal and the close requests before it. */
    ghost predicate WatchEnds(intent: EntryIntent, before: Journal, closes: seq<real>, first: EntryOrder,
                              r: Result<(EntryOrder, real, bool), EntryError>)
      reads venue
    {
      && Approved(intent) && (!venue.unknownSeen ==> OthersIdle(venue.orders))
      && Asked(before.guards, venue.log.guards)
      && Issued(r, closes)
      && match r
         case Ok((order, protectedQuantity, finished)) =>
           && Watched(before, venue.log, first, order, finished)
           && (if finished then Settled(order) else Resting(order, protectedQuantity))
         case Err(error) => error != NotSubmitted && Blamed(error, before.(guards := venue.log.guards))
    }

    lemma EndsFailed<T>(intent: EntryIntent, before: Journal, now: Journal, closes: seq<real>, first: EntryOrder,
                        failed: Result<T, EntryError>)
      requires failed.Err? && failed.error != NotSubmitted && Issued(failed, closes) && Blamed(failed.error, now)
      requires Approved(intent) && (!venue.unknownSeen ==> OthersIdle(venue.orders))
      requires Asked(before.guards, now.guards) && SameRequests(before, now)
      ensures WatchEnds(intent, before, closes, first, Err(failed.error))
    {
    }

    lemma EndsWell(intent: EntryIntent, before: Journal, first: EntryOrder, order: EntryOrder, protectedQuantity: real,
                   finished: bool)
      requires Covered(intent, order, protectedQuantity)
      requires order.status.Submitted? || order.status.PartiallyFilled? ==> venue.unknownSeen
      requires Watched(before, venue.log, first, order, finished)
      ensures WatchEnds(intent, before, venue.closeRequests, first, Ok((order, protectedQuantity, finished)))
    {
      OverMeansSettled(intent, order, protectedQuantity);
    }

    /** Nothing but polls, cancellations and the operator's answers came in between. */
    predicate SameRequests(before: Journal, now: Journal) {
      now.clock == before.clock && now.quotes == before.quotes && now.placements == before.placements
    }

    /**
      Poll the newest order until it is over, entries are no longer allowed, or its time is up.
      The flag says whether the whole entry is finished.
     */
    method WatchOrder(intent: EntryIntent, first: EntryOrder, initialProtection: real)
      returns (r: Result<(EntryOrder, real, bool), EntryError>)
      requires fillPollSeconds >= 1
      requires Covered(intent, first, initialProtection)
      modifies venue
      ensures |venue.orders| == |old(venue.orders)| && venue.overlapped == old(venue.overlapped)
      ensures old(venue.unknownSeen) ==> venue.unknownSeen
      ensures WatchEnds(intent, old(venue.log), old(venue.closeRequests), first, r)
    {
      hide Approved, Tracking, Covered, OthersIdle, Settled, Resting, Watched, Watching, Asked, Blamed, Issued, WatchEnds,
           Polled, Cancelled, SameRequests, AllProgress, Seen;
      var order, protectedQuantity, elapsed := first, initialProtection, 0;
      StartsWatching(intent, first, initialProtection);
      ghost var over := false;
      while elapsed < repriceSeconds
        invariant Covered(intent, order, protectedQuantity)
        invariant |venue.orders| == |old(venue.orders)| && venue.overlapped == old(venue.overlapped)
        invariant old(venue.unknownSeen) ==> venue.unknownSeen
        invariant venue.closeRequests == old(venue.closeRequests)
        invariant !over && elapsed >= 0 && Watching(old(venue.log), venue.log, first, order, elapsed)
        decreases repriceSeconds - elapsed
      {
        ghost var last, now, slept := order, venue.log, elapsed;
        WatchingAsked(old(venue.log), now, first, order, elapsed, true);
        var seconds := if fillPollSeconds <= repriceSeconds - elapsed then fillPollSeconds else repriceSeconds - elapsed;
        elapsed := elapsed + seconds;
        var polled := PollAndProtect(intent, order, protectedQuantity, seconds);
        if polled.Err? {
          EndsFailed(intent, old(venue.log), now, old(venue.closeRequests), first, polled);
          return Err(polled.error);
        }
        order, protectedQuantity := polled.value.0, polled.value.1;
        ghost var average := venue.log.average;
        if order.status.Filled? {
          PollEnds(old(venue.log), now, first, last, slept, order, average);
          EndsWell(intent, old(venue.log), first, order, protectedQuantity, true);
          return Ok((order, protectedQuantity, true));
        }
        if order.status.Canceled? || order.status.Rejected? || order.status.Expired? {
          PollEnds(old(venue.log), now, first, last, slept, order, average);
          over := true;
          break;
        }
        var allowed := StillAllowed(intent, order, protectedQuantity);
        if !allowed {
          ghost var asked := venue.log;
          StopAsked(old(venue.log), now, first, last, slept, seconds, order, average);
          var ended := CancelAndProtect(intent, order, protectedQuantity);
          if ended.Err? {
            EndsFailed(intent, old(venue.log), asked, old(venue.closeRequests), first, ended);
            return Err(ended.error);
          }
          PollStops(old(venue.log), now, first, last, slept, order, average, ended.value.0, venue.log.average);
          EndsWell(intent, old(venue.log), first, ended.value.0, ended.value.1, true);
          return Ok((ended.value.0, ended.value.1, true));
        }
        PollContinues(old(venue.log), now, first, last, slept, order, average);
      }
      ghost var now, last := venue.log, order;
      if !over {
        WatchingAsked(old(venue.log), now, first, order, elapsed, true);
      }
      if order.status.Submitted? || order.status.PartiallyFilled? {
        var ended := CancelAndProtect(intent, order, protectedQuantity);
        if ended.Err? {
          EndsFailed(intent, old(venue.log), now, old(venue.closeRequests), first, ended);
          return Err(ended.error);
        }
        order, protectedQuantity := ended.value.0, ended.value.1;
      }
      if !over {
        TimeEnds(old(venue.log), now, first, last, elapsed, order, venue.log.average);
      }
            EndsWell(intent, old(venue.log), first, order, protectedQuantity, order.filled > 0.0);
      return Ok((order, protectedQuantity, order.filled > 0.0));
    }

    /** The price of the newest quote, if one came and lies in the approved band. */
    function Quoted(intent: EntryIntent, quotes: seq<Result<real, EntryError>>): Option<real> {
      if quotes == [] || quotes[|quotes| - 1].Err? then None
      else
        var price := quotes[|quotes| - 1].value;
        if intent.entryMin <= price <= intent.entryMax then Some(price) else None
    }

    /**
      What one attempt comes to.  It quotes unless entries are stopped, places at the quote when
      that lies in the approved band, and watches an order that was not filled at once.
     */
    ghost predicate Attempted(intent: EntryIntent, before: Journal, r: Result<(EntryOrder, real, bool), EntryError>)
      reads venue
    {
      var now := venue.log;
      && before.guards < now.guards
      && var asked := before.(guards := before.guards + [now.guards[|before.guards|]]);
      if !now.guards[|before.guards|] then now == asked && r == Err(ExchangeFailure)
      else
        && |now.quotes| == |before.quotes| + 1
        && var quoted := asked.(quotes := before.quotes + [now.quotes[|before.quotes|]]);
        var price := Quoted(intent, now.quotes);
        if price.None? then
          if now.quotes[|before.quotes|].Err?
          then
            var failure := Unquoted(now.quotes[|before.quotes|].error);
            now == quoted.(failed := Some(failure)) && r == Err(ErrorOf(failure))
          else now == quoted && r == Err(ExchangeFailure)
        else
          && |now.placements| == |before.placements| + 1
          && now.quotes == quoted.quotes
          && var answer := now.placements[|before.placements|].answer;
          && var placed := AfterPlacement(quoted, price.value, intent.quantity, answer);
          && now.placements == placed.placements
          && (answer.Err? ==> now == placed && r == Err(answer.error))
          && (answer.Ok? ==> Pursued(placed, answer.value, r))
    }

    /** What an accepted order comes to: it is filled at once or watched, or a request fails. */
    ghost predicate Pursued(before: Journal, placed: EntryOrder, r: Result<(EntryOrder, real, bool), EntryError>)
      reads venue
    {
      var now := venue.log;
      && before.guards <= now.guards
      && (r.Err? ==> Blamed(r.error, before.(guards := now.guards)))
      && (r.Ok? ==>
            if placed.status.Filled?
            then r.value.2 && r.value.0 == placed && now == before.(average := now.average)
            else Watched(before, now, placed, r.value.0, r.value.2))
    }

    /** Which entry price protection was for before does not matter to watching. */
    lemma AnyAverage(before: Journal, now: Journal, average: real, first: EntryOrder, order: EntryOrder, finished: bool)
      requires Watched(before, now, first, order, finished)
      ensures Watched(before.(average := average), now, first, order, finished)
    {
    }

    /** Protect what an accepted order got at once, and watch it unless that was all of it. */
    method Pursue(intent: EntryIntent, placed: EntryOrder, initialProtection: real)
      returns (r: Result<(EntryOrder, real, bool), EntryError>)
      requires fillPollSeconds >= 1
      requires Tracking(intent, placed, initialProtection)
      requires !venue.unknownSeen ==> initialProtection == 0.0
      modifies venue
      ensures Approved(intent) && |venue.orders| == |old(venue.orders)| && venue.overlapped == old(venue.overlapped)
      ensures Pursued(old(venue.log), placed, r) && SameRequests(old(venue.log), venue.log)
      ensures Asked(old(venue.log.guards), venue.log.guards)
      ensures !venue.unknownSeen ==> OthersIdle(venue.orders)
      ensures old(venue.unknownSeen) ==> venue.unknownSeen
      ensures r.Ok? && r.value.2 ==> Settled(r.value.0)
      ensures r.Ok? && !r.value.2 ==> Resting(r.value.0, r.value.1)
      ensures r.Err? ==> r.error != NotSubmitted
      ensures Issued(r, old(venue.closeRequests))
    {
      hide Approved, Watched, Seen, AllIdle, Settled;
      var guarded := ProtectNewFills(intent, placed, initialProtection);
      if guarded.Err? {
        return Err(guarded.error);
      }
      if placed.status.Filled? {
        OverMeansSettled(intent, placed, guarded.value);
        return Ok((placed, guarded.value, true));
      }
      ghost var guardedLog := venue.log;
      r := WatchOrder(intent, placed, guarded.value);
      if r.Ok? {
        AnyAverage(guardedLog, venue.log, old(venue.log.average), placed, r.value.0, r.value.2);
      }
    }

    /** Place an order inside the band while no other one works. */
    method Place(intent: EntryIntent, price: real, protectedQuantity: real) returns (r: Result<EntryOrder, EntryError>)
      requires intent.quantity > 0.0 && intent.entryMin <= price <= intent.entryMax
      requires Approved(intent) && protectedQuantity == venue.protectedQuantity
      requires !venue.unknownSeen ==> AllIdle(venue.orders) && protectedQuantity == 0.0
      modifies venue`orders, venue`log, venue`unknownSeen, venue`overlapped
      ensures Approved(intent) && |venue.orders| <= |old(venue.orders)| + 1
      ensures venue.overlapped ==> old(venue.overlapped) || old(venue.unknownSeen)
      ensures !venue.unknownSeen ==> OthersIdle(venue.orders)
      ensures old(venue.unknownSeen) ==> venue.unknownSeen
      ensures r.Ok? ==> Tracking(intent, r.value, protectedQuantity) && |venue.orders| == |old(venue.orders)| + 1
      ensures r == Err(NotSubmitted) && !venue.unknownSeen ==> AllIdle(venue.orders)
      ensures r.Err? ==> r.error == NotSubmitted || r.error == UnknownStatus || r.error == ExchangeFailure
      ensures venue.log == AfterPlacement(old(venue.log), price, intent.quantity, r)
    {
      r := venue.PlaceLimitEntry(price, intent.quantity);
    }

    /** One attempt: quote, place, protect, watch.  Entered only when all earlier attempts came to nothing. */
    method Attempt(intent: EntryIntent, initialProtection: real) returns (r: Result<(EntryOrder, real, bool), EntryError>)
      requires fillPollSeconds >= 1 && intent.quantity > 0.0
      requires Approved(intent) && initialProtection == venue.protectedQuantity
      requires !venue.unknownSeen ==> AllIdle(venue.orders) && initialProtection == 0.0
      modifies venue
      ensures Approved(intent) && |venue.orders| <= |old(venue.orders)| + 1
      ensures r.Ok? ==> |venue.orders| == |old(venue.orders)| + 1
      ensures Attempted(intent, old(venue.log), r)
      ensures Asked(old(venue.log.guards), venue.log.guards) && venue.log.clock == old(venue.log.clock)
      ensures venue.overlapped ==> old(venue.overlapped) || old(venue.unknownSeen)
      ensures !venue.unknownSeen ==> OthersIdle(venue.orders)
      ensures old(venue.unknownSeen) ==> venue.unknownSeen
      ensures r.Ok? && r.value.2 ==> Settled(r.value.0)
      ensures r.Ok? && !r.value.2 ==> Resting(r.value.0, r.value.1)
      ensures r == Err(NotSubmitted) && !venue.unknownSeen ==> AllIdle(venue.orders) && venue.protectedQuantity == 0.0
      ensures Issued(r, old(venue.closeRequests))
    {
      hide Pursued, Seen, Settled, Blamed;
      var allowed := venue.EntriesAllowed();
      if !allowed {
        return Err(ExchangeFailure);
      }
      var quote := venue.BestPrice();
      if quote.Err? {
        return Err(if quote.error == UnknownStatus then UnknownStatus else NotSubmitted);
      }
      if !(intent.entryMin <= quote.value <= intent.entryMax) {
        return Err(ExchangeFailure);
      }
      var placed := Place(intent, quote.value, initialProtection);
      if placed.Err? {
        return Err(placed.error);
      }
      r := Pursue(intent, placed.value, initialProtection);
    }

    /** An attempt that returns normally, after attempts that all came to nothing. */
    lemma AttemptReturns(intent: EntryIntent, before: Journal, r: Result<(EntryOrder, real, bool), EntryError>)
      requires Attempted(intent, before, r) && r.Ok? && before.failed.None?
      requires Unstopped(before.guards) && AtQuotes(before) && |before.quotes| == |before.placements|
      requires Asked(before.guards, venue.log.guards)
      ensures var now := venue.log;
              && now.failed.None? && now.latest == r.value.0 && AtQuotes(now) && AllBefore(now.guards, true)
              && |now.quotes| == |now.placements| == |before.placements| + 1
              && if r.value.2 then r.value.0.filled > 0.0 || LastFilled(now.reports) || LastIs(now.guards, false)
                 else Unstopped(now.guards)
    {
    }

    lemma AttemptFails(intent: EntryIntent, before: Journal, r: Result<(EntryOrder, real, bool), EntryError>)
      requires Attempted(intent, before, r) && r.Err? && before.failed.None?
      requires Unstopped(before.guards) && AtQuotes(before) && |before.quotes| == |before.placements|
      requires Asked(before.guards, venue.log.guards) && venue.log.clock == before.clock && !LastIs(before.clock, true)
      ensures Explained(intent, venue.log, r.error) && AtQuotes(venue.log) && AllBefore(venue.log.guards, true)
    {
    }

    predicate Unstopped(guards: seq<bool>) {
      forall i :: 0 <= i < |guards| ==> guards[i]
    }

    /** Every placement was made at the quote it followed. */
    predicate AtQuotes(log: Journal) {
      && |log.placements| <= |log.quotes|
      && forall i :: 0 <= i < |log.placements| ==> log.quotes[i] == Ok(log.placements[i].price)
    }

    /** Why an entry ended without error: it is finished, has expired, or used up its attempts. */
    predicate Concluded(log: Journal, order: EntryOrder) {
      || order.filled > 0.0 || LastFilled(log.reports) || LastIs(log.guards, false)
      || LastIs(log.clock, true)
      || |log.placements| == maxReprices + 1
    }

    /** Why an entry ended with this error. */
    predicate Explained(intent: EntryIntent, log: Journal, error: EntryError) {
      match log.failed
      case Some(failure) => error == ErrorOf(failure)
      case None =>
        if LastIs(log.clock, true) then error == NotSubmitted
        else error == ExchangeFailure
             && (|| maxReprices < 0 || LastIs(log.guards, false)
                 || (log.quotes != [] && Quoted(intent, log.quotes).None?))
    }

    /**
      The whole entry.  As long as every order report used a known status word: at most one
      order is ever working, the fills of all attempts together stay within the approved
      quantity, a normal return leaves nothing working and everything filled protected, and
      `NotSubmitted` means that nothing was bought or sold.  Whatever the reports, an attempt
      that got nothing is followed by the next one until they are used up, the intent expires
      or entries are stopped.
     */
    method Execute(intent: EntryIntent) returns (r: Result<EntryOrder, EntryError>)
      requires fillPollSeconds >= 1 && intent.quantity > 0.0
      requires venue.Untouched()
      modifies venue
      ensures Approved(intent)
      ensures |venue.orders| <= if maxReprices >= 0 then maxReprices + 1 else 0
      ensures !venue.unknownSeen ==> AtMostOneWorking(venue.orders) && TotalFilled(venue.orders) <= intent.quantity
      ensures !venue.unknownSeen ==> !venue.overlapped
      ensures r.Ok? ==> Settled(r.value)
      ensures r == Err(NotSubmitted) && !venue.unknownSeen ==> AllIdle(venue.orders) && venue.protectedQuantity == 0.0
      ensures Issued(r, [])
      ensures AllBefore(venue.log.guards, true) && AllBefore(venue.log.clock, false) && AtQuotes(venue.log)
      ensures r.Ok? ==>
                && venue.log.failed.None? && Concluded(venue.log, r.value)
                && |venue.orders| == |venue.log.placements| == |venue.log.quotes|
      ensures r.Err? ==> Explained(intent, venue.log, r.error)
    {
      hide Attempted, Asked;
      var expired := venue.Expired();
      if expired {
        return Err(NotSubmitted);
      }
      var configured := venue.ConfigureSymbol();
      if configured.Err? {
        return Err(if configured.error == UnknownStatus then UnknownStatus else NotSubmitted);
      }
      var last: Option<EntryOrder> := None;
      var protectedQuantity := 0.0;
      var attempt := 0;
      while attempt < maxReprices + 1
        invariant attempt >= 0 && (attempt <= maxReprices + 1 || attempt == 0)
        invariant Approved(intent) && |venue.orders| == attempt
        invariant venue.closeRequests == []
        invariant venue.overlapped ==> venue.unknownSeen
        invariant protectedQuantity == venue.protectedQuantity
        invariant !venue.unknownSeen ==> AllIdle(venue.orders) && protectedQuantity == 0.0
        invariant last.Some? ==> last.value == venue.log.latest && last.value.filled <= protectedQuantity
        invariant last.Some? && !venue.unknownSeen ==> last.value.filled == 0.0
        invariant last.Some? <==> attempt > 0
        invariant venue.log.failed.None? && AtQuotes(venue.log)
        invariant |venue.log.quotes| == |venue.log.placements| == attempt
        invariant Unstopped(venue.log.guards)
        invariant forall i :: 0 <= i < |venue.log.clock| ==> !venue.log.clock[i]
        invariant |venue.log.clock| == attempt + 1
      {
        ghost var before := venue.log;
        var tried := Attempt(intent, protectedQuantity);
        Bounded(intent);
        if tried.Err? {
          AttemptFails(intent, before, tried);
          return Err(tried.error);
        }
        AttemptReturns(intent, before, tried);
        if tried.value.2 {
          return Ok(tried.value.0);
        }
        last, protectedQuantity, attempt := Some(tried.value.0), tried.value.1, attempt + 1;
        var late := venue.Expired();
        if late {
          break;
        }
      }
      Bounded(intent);
      if !venue.unknownSeen {
        IdleTotal(venue.orders);
      }
      r := if last.None? then Err(ExchangeFailure) else Ok(last.value);
    }

    /** What the bookkeeping of attempts means for exposure. */
    lemma Bounded(intent: EntryIntent)
      requires Approved(intent) && intent.quantity > 0.0
      requires !venue.unknownSeen ==> OthersIdle(venue.orders)
      ensures !venue.unknownSeen ==> AtMostOneWorking(venue.orders) && TotalFilled(venue.orders) <= intent.quantity
    {
      if !venue.unknownSeen && venue.orders != [] {
        LastTotal(venue.orders);
      }
    }
  }

  /** The order is now at least as far as when `view` was reported, and unchanged if it was over. */
  predicate Seen(o: EntryOrder, view: EntryOrder) {
    && view.filled <= o.filled
    && (!Working(view.status) ==> o == view)
  }
}
