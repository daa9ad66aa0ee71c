/**
  The depth book mirrored from a REST snapshot and a stream of diff events.  The reference
  is the exchange's own book, given for every update id; the mirror has to equal it at
  `lastUpdateId` on every price it has learned anything about.
 */
module OrderBook {
  import opened Common

  type Side = map<real, real>

  /** A level row as received; anything unparsable is `Malformed`. */
  datatype Row = Malformed | Level(price: real, quantity: real)

  /** `pu` is the id the event says it follows: absent, unreadable or a number. */
  datatype Previous = Absent | Unreadable | Follows(id: int)

  datatype Event = Event(
    symbol: string,
    firstId: Option<int>,
    finalId: Option<int>,
    previous: Previous,
    bids: seq<Row>,
    asks: seq<Row>)

  datatype Snapshot = Snapshot(lastUpdateId: int, bids: seq<Row>, asks: seq<Row>)

  datatype Status = Applied | Stale | Gap | NotReady | Ignored

  // ----- Level updates -----

  predicate Usable(row: Row) {
    row.Level? && row.price > 0.0
  }

  function ApplyRow(side: Side, row: Row): Side {
    if !Usable(row) then side
    else if row.quantity <= 0.0 then side - {row.price}
    else side[row.price := row.quantity]
  }

  function ApplyRows(side: Side, rows: seq<Row>): Side {
    if rows == [] then side
    else ApplyRow(ApplyRows(side, rows[..|rows| - 1]), rows[|rows| - 1])
  }

  predicate Listed(row: Row) {
    row.Level? && row.price > 0.0 && row.quantity > 0.0
  }

  /** Snapshot rows start from an empty side; rows without a positive quantity are skipped, not removed. */
  function LevelsOf(rows: seq<Row>): Side {
    if rows == [] then map[]
    else
      var rest := LevelsOf(rows[..|rows| - 1]);
      var row := rows[|rows| - 1];
      if Listed(row) then rest[row.price := row.quantity] else rest
  }

  function Quantity(side: Side, price: real): real {
    if price in side then side[price] else 0.0
  }

  /** What the rows finally say about a price, if anything. */
  function LastWord(rows: seq<Row>, price: real): Option<real> {
    if rows == [] then None
    else
      var row := rows[|rows| - 1];
      if Usable(row) && row.price == price then Some(Max(row.quantity, 0.0))
      else LastWord(rows[..|rows| - 1], price)
  }

  predicate PositiveSide(side: Side) {
    forall p :: p in side ==> p > 0.0 && side[p] > 0.0
  }

  /** Applying rows means: the last word on a price counts, silence leaves it alone. */
  lemma {:induction false} ApplyRowsMeaning(side: Side, rows: seq<Row>, price: real)
    requires PositiveSide(side)
    ensures PositiveSide(ApplyRows(side, rows))
    ensures Quantity(ApplyRows(side, rows), price) ==
            match LastWord(rows, price) case Some(q) => q case None => Quantity(side, price)
  {
    if rows != [] {
      ApplyRowsMeaning(side, rows[..|rows| - 1], price);
      forall p | p in ApplyRows(side, rows)
        ensures p > 0.0 && ApplyRows(side, rows)[p] > 0.0
      {
      }
    }
  }

  /** Row `i` is the last to list a quantity at this price. */
  predicate LastListed(rows: seq<Row>, price: real, i: int) {
    && 0 <= i < |rows| && Listed(rows[i]) && rows[i].price == price
    && forall j :: i < j < |rows| && Listed(rows[j]) ==> rows[j].price != price
  }

  /** Reading a snapshot means: the levels are the listed prices, each with the quantity listed last. */
  lemma {:induction false} LevelsOfMeaning(rows: seq<Row>, price: real)
    ensures price in LevelsOf(rows) <==> exists i :: 0 <= i < |rows| && Listed(rows[i]) && rows[i].price == price
    ensures price in LevelsOf(rows) ==> exists i :: LastListed(rows, price, i) && LevelsOf(rows)[price] == rows[i].quantity
  {
    if rows != [] {
      var front, last := rows[..|rows| - 1], |rows| - 1;
      LevelsOfMeaning(front, price);
      if Listed(rows[last]) && rows[last].price == price {
        assert LastListed(rows, price, last);
      } else if price in LevelsOf(front) {
        var i :| LastListed(front, price, i) && LevelsOf(front)[price] == front[i].quantity;
        assert LastListed(rows, price, i);
      }
    }
  }

  lemma {:induction false} LevelsOfPositive(rows: seq<Row>)
    ensures PositiveSide(LevelsOf(rows))
  {
    if rows != [] {
      LevelsOfPositive(rows[..|rows| - 1]);
    }
  }

  // ----- The exchange's book and what it sends -----

  datatype TrueBook = TrueBook(bids: Side, asks: Side)

  type History = int -> TrueBook

  ghost predicate SaneHistory(truth: History) {
    forall n :: PositiveSide(truth(n).bids) && PositiveSide(truth(n).asks)
  }

  /** Rows that report the changes of one side between two ids: the final quantity of every price that changed. */
  ghost predicate ReportsSide(rows: seq<Row>, before: int -> Side, firstId: int, finalId: int) {
    forall p: real {:trigger LastWord(rows, p)} :: p > 0.0 ==>
      match LastWord(rows, p)
      case Some(q) => q == Quantity(before(finalId), p)
      case None => forall n :: firstId - 1 <= n <= finalId ==> Quantity(before(n), p) == Quantity(before(finalId), p)
  }

  /** The event truthfully reports the updates from its first to its final id. */
  ghost predicate Genuine(e: Event, truth: History) {
    e.firstId.Some? && e.finalId.Some? && e.firstId.value <= e.finalId.value ==>
      && ReportsSide(e.bids, n => truth(n).bids, e.firstId.value, e.finalId.value)
      && ReportsSide(e.asks, n => truth(n).asks, e.firstId.value, e.finalId.value)
  }

  /** The prices of each side on which a snapshot is complete. */
  datatype Coverage = Coverage(bids: iset<real>, asks: iset<real>)

  /**
    Rows that list one side as it is: every usable row has a covered price and its true quantity,
    and a covered price without a row has none.
   */
  ghost predicate ListsSide(rows: seq<Row>, truth: Side, covered: iset<real>) {
    && (forall i :: 0 <= i < |rows| && Usable(rows[i]) ==>
                      rows[i].price in covered && Max(rows[i].quantity, 0.0) == Quantity(truth, rows[i].price))
    && (forall p :: p in covered ==>
                      (exists i :: 0 <= i < |rows| && Usable(rows[i]) && rows[i].price == p) || Quantity(truth, p) == 0.0)
  }

  ghost predicate SnapshotTrue(s: Snapshot, truth: History, covered: Coverage) {
    && ListsSide(s.bids, truth(s.lastUpdateId).bids, covered.bids)
    && ListsSide(s.asks, truth(s.lastUpdateId).asks, covered.asks)
  }

  /** The prices some usable row mentions. */
  ghost function Touched(rows: seq<Row>): iset<real> {
    iset p | LastWord(rows, p).Some?
  }

  // ----- One book -----

  datatype Book = Book(
    symbol: string, bids: Side, asks: Side, lastUpdateId: Option<int>, hasAppliedEvent: bool, receivedAt: real)

  function ResetBook(b: Book): Book {
    Book(b.symbol, map[], map[], None, false, 0.0)
  }

  function SnapshotBook(b: Book, s: Snapshot): Book {
    Book(b.symbol, LevelsOf(s.bids), LevelsOf(s.asks), Some(s.lastUpdateId), false, b.receivedAt)
  }

  function Classify(b: Book, e: Event): Status {
    if e.symbol != b.symbol || e.firstId.None? || e.finalId.None? || e.finalId.value < e.firstId.value then Ignored
    else if b.lastUpdateId.None? then NotReady
    else if e.finalId.value <= b.lastUpdateId.value then Stale
    else if b.hasAppliedEvent && e.previous.Absent? then Gap
    else if e.previous.Unreadable? then Gap
    else if b.hasAppliedEvent && e.previous.id != b.lastUpdateId.value then Gap
    else if !(e.firstId.value <= b.lastUpdateId.value + 1 <= e.finalId.value) then Gap
    else Status.Applied
  }

  function EventBook(b: Book, e: Event, now: real): Book {
    if Classify(b, e).Applied?
    then Book(b.symbol, ApplyRows(b.bids, e.bids), ApplyRows(b.asks, e.asks), e.finalId, true, now)
    else b
  }

  ghost predicate AgreesOn(side: Side, truth: Side, covered: iset<real>) {
    && PositiveSide(side)
    && (forall p :: p in covered ==> Quantity(side, p) == Quantity(truth, p))
    && (forall p :: p in side ==> p in covered)
  }

  /** The mirror equals the exchange's book at its id wherever it knows anything. */
  ghost predicate Mirrors(b: Book, truth: History, covered: Coverage) {
    b.lastUpdateId.Some? ==>
      && AgreesOn(b.bids, truth(b.lastUpdateId.value).bids, covered.bids)
      && AgreesOn(b.asks, truth(b.lastUpdateId.value).asks, covered.asks)
  }

  ghost function Covering(b: Book, e: Event, covered: Coverage): Coverage {
    if Classify(b, e).Applied?
    then Coverage(covered.bids + Touched(e.bids), covered.asks + Touched(e.asks))
    else covered
  }

  lemma SideAdvances(side: Side,
                     truth: int -> Side, covered: iset<real>, rows: seq<Row>, at: int, firstId: int, finalId: int)
    requires AgreesOn(side, truth(at), covered)
    requires ReportsSide(rows, truth, firstId, finalId)
    requires firstId - 1 <= at <= finalId
    requires PositiveSide(truth(at)) && PositiveSide(truth(finalId))
    ensures AgreesOn(ApplyRows(side, rows), truth(finalId), covered + Touched(rows))
  {
    forall p: real
      ensures p in covered + Touched(rows) ==> Quantity(ApplyRows(side, rows), p) == Quantity(truth(finalId), p)
      ensures p in ApplyRows(side, rows) ==> p in covered + Touched(rows)
    {
      ApplyRowsMeaning(side, rows, p);
      if p <= 0.0 {
        NoWordBelowZero(rows, p);
      }
    }
    ApplyRowsMeaning(side, rows, 0.0);
  }

  lemma {:induction false} NoWordBelowZero(rows: seq<Row>, p: real)
    requires p <= 0.0
    ensures LastWord(rows, p).None?
  {
    if rows != [] {
      NoWordBelowZero(rows[..|rows| - 1], p);
    }
  }

  /** Applying a genuine event keeps the mirror true and extends what it knows. */
  lemma EventKeepsMirror(b: Book, e: Event, now: real, truth: History, covered: Coverage)
    requires SaneHistory(truth) && Mirrors(b, truth, covered) && Genuine(e, truth)
    ensures Mirrors(EventBook(b, e, now), truth, Covering(b, e, covered))
  {
    if Classify(b, e).Applied? {
      var at := b.lastUpdateId.value;
      SideAdvances(b.bids, n => truth(n).bids, covered.bids, e.bids, at, e.firstId.value, e.finalId.value);
      SideAdvances(b.asks, n => truth(n).asks, covered.asks, e.asks, at, e.firstId.value, e.finalId.value);
    }
  }

  /** Levels read from rows that list a side as it is agree with it. */
  lemma ListedSideAgrees(rows: seq<Row>, truth: Side, covered: iset<real>)
    requires ListsSide(rows, truth, covered)
    ensures AgreesOn(LevelsOf(rows), truth, covered)
  {
    LevelsOfPositive(rows);
    forall p: real
      ensures p in covered ==> Quantity(LevelsOf(rows), p) == Quantity(truth, p)
      ensures p in LevelsOf(rows) ==> p in covered
    {
      LevelsOfMeaning(rows, p);
    }
  }

  lemma SnapshotMirrors(b: Book, s: Snapshot, truth: History, covered: Coverage)
    requires SnapshotTrue(s, truth, covered)
    ensures Mirrors(SnapshotBook(b, s), truth, covered)
  {
    ListedSideAgrees(s.bids, truth(s.lastUpdateId).bids, covered.bids);
    ListedSideAgrees(s.asks, truth(s.lastUpdateId).asks, covered.asks);
  }

  // ----- Whole runs -----

  datatype Input =
    | Reset
    | Resync(snapshot: Snapshot, complete: Coverage)
    | Receive(event: Event, now: real)

  ghost predicate GenuineInput(i: Input, truth: History) {
    match i
    case Reset => true
    case Resync(s, complete) => SnapshotTrue(s, truth, complete)
    case Receive(e, _) => Genuine(e, truth)
  }

  ghost function StepBook(b: Book, i: Input): Book {
    match i
    case Reset => ResetBook(b)
    case Resync(s, _) => SnapshotBook(b, s)
    case Receive(e, now) => EventBook(b, e, now)
  }

  ghost function StepCoverage(b: Book, i: Input, covered: Coverage): Coverage {
    match i
    case Reset => Coverage(iset{}, iset{})
    case Resync(_, complete) => complete
    case Receive(e, _) => Covering(b, e, covered)
  }

  ghost function RunBook(b: Book, inputs: seq<Input>): Book {
    if inputs == [] then b else StepBook(RunBook(b, inputs[..|inputs| - 1]), inputs[|inputs| - 1])
  }

  ghost function RunCoverage(b: Book, inputs: seq<Input>): Coverage {
    if inputs == [] then Coverage(iset{}, iset{})
    else
      var before := inputs[..|inputs| - 1];
      StepCoverage(RunBook(b, before), inputs[|inputs| - 1], RunCoverage(b, before))
  }

  /**
    Whatever mixture of resets, snapshots and genuine events arrives (lost, repeated, out of
    order or overlapping a snapshot), a synchronized book equals the exchange's book at its
    own update id on every price a snapshot was complete on or an applied event mentioned.
   */
  lemma {:induction false} RunMirrors(b: Book, inputs: seq<Input>, truth: History)
    requires SaneHistory(truth) && b.lastUpdateId.None?
    requires forall i :: 0 <= i < |inputs| ==> GenuineInput(inputs[i], truth)
    ensures Mirrors(RunBook(b, inputs), truth, RunCoverage(b, inputs))
  {
    if inputs != [] {
      var before, last := inputs[..|inputs| - 1], inputs[|inputs| - 1];
      RunMirrors(b, before, truth);
      var now := RunBook(b, before);
      match last {
        case Reset =>
        case Resync(s, complete) => SnapshotMirrors(now, s, truth, complete);
        case Receive(e, at) => EventKeepsMirror(now, e, at, truth, RunCoverage(b, before));
      }
    }
  }

  /** `price` is the highest level of the side. */
  predicate IsBestBid(bids: Side, price: real) {
    price in bids && forall p :: p in bids ==> p <= price
  }

  predicate IsBestAsk(asks: Side, price: real) {
    price in asks && forall p :: p in asks ==> price <= p
  }

  /** The mirrored best bid is the true one if the book is complete from there up. */
  lemma BestBidIsTrue(b: Book, truth: History, covered: Coverage, price: real)
    requires SaneHistory(truth) && Mirrors(b, truth, covered) && b.lastUpdateId.Some?
    requires IsBestBid(b.bids, price)
    requires forall p :: p >= price ==> p in covered.bids
    ensures IsBestBid(truth(b.lastUpdateId.value).bids, price)
  {
    var id := b.lastUpdateId.value;
    assert PositiveSide(truth(id).bids) && PositiveSide(truth(id).asks);
    var t := truth(id).bids;
    assert Quantity(b.bids, price) == Quantity(t, price);
    forall p | p in t && p >= price
      ensures p in b.bids
    {
      assert Quantity(b.bids, p) == Quantity(t, p) > 0.0;
    }
  }

  lemma BestAskIsTrue(b: Book, truth: History, covered: Coverage, price: real)
    requires SaneHistory(truth) && Mirrors(b, truth, covered) && b.lastUpdateId.Some?
    requires IsBestAsk(b.asks, price)
    requires forall p :: 0.0 < p <= price ==> p in covered.asks
    ensures IsBestAsk(truth(b.lastUpdateId.value).asks, price)
  {
    var id := b.lastUpdateId.value;
    assert PositiveSide(truth(id).bids) && PositiveSide(truth(id).asks);
    var t := truth(id).asks;
    assert Quantity(b.asks, price) == Quantity(t, price);
    forall p | p in t && p <= price
      ensures p in b.asks
    {
      assert Quantity(b.asks, p) == Quantity(t, p) > 0.0;
    }
  }

  // ----- Streams without holes -----

  predicate Contiguous(symbol: string, es: seq<Event>) {
    && (forall i :: 0 <= i < |es| ==>
                      && es[i].symbol == symbol && es[i].firstId.Some? && es[i].finalId.Some?
                      && es[i].firstId.value <= es[i].finalId.value && !es[i].previous.Unreadable?)
    && (forall i :: 0 < i < |es| ==>
                      && es[i].firstId.value == es[i - 1].finalId.value + 1
                      && es[i].previous == Follows(es[i - 1].finalId.value))
  }

  /** Each event in turn is applied, or stale because the book is already past it. */
  predicate NeverGaps(b: Book, es: seq<Event>, now: real)
    decreases es
  {
    es == [] ||
    (&& (Classify(b, es[0]).Applied? || Classify(b, es[0]).Stale?)
     && NeverGaps(EventBook(b, es[0], now), es[1..], now))
  }

  /** A contiguous stream that starts no later than right after the snapshot never shows a gap ... */
  lemma {:induction false} ContiguousNeverGaps(b: Book, es: seq<Event>, now: real)
    requires Contiguous(b.symbol, es) && b.lastUpdateId.Some?
    requires es != [] && !b.hasAppliedEvent ==> es[0].firstId.value <= b.lastUpdateId.value + 1
    requires es != [] && b.hasAppliedEvent ==>
               es[0].firstId.value == b.lastUpdateId.value + 1 && es[0].previous == Follows(b.lastUpdateId.value)
    ensures NeverGaps(b, es, now)
    decreases es
  {
    if es != [] {
      ContiguousNeverGaps(EventBook(b, es[0], now), es[1..], now);
    }
  }

  /** The book right after `e` was applied. */
  predicate StandsAt(b: Book, e: Event) {
    b.symbol == e.symbol && e.finalId.Some? && b.lastUpdateId == e.finalId && b.hasAppliedEvent
  }

  /**
    A snapshot answers the first event by the snapshot's id alone: what it covers is stale, an event that
    reaches back to it is applied, whatever came before that event, and anything later is a gap.
   */
  lemma SnapshotBridges(b: Book, s: Snapshot, e: Event, now: real)
    requires e.symbol == b.symbol && e.firstId.Some? && e.finalId.Some? && e.firstId.value <= e.finalId.value
    requires !e.previous.Unreadable?
    ensures var book := SnapshotBook(b, s);
            && Classify(book, e) == (if e.finalId.value <= s.lastUpdateId then Stale
                                     else if e.firstId.value <= s.lastUpdateId + 1 then Status.Applied else Gap)
            && (Classify(book, e).Applied? ==> StandsAt(EventBook(book, e, now), e))
    ensures Classify(ResetBook(b), e).NotReady?
  {
  }

  lemma {:induction false} IdsGrow(symbol: string, es: seq<Event>, i: nat, k: nat)
    requires Contiguous(symbol, es) && i < k < |es|
    ensures es[i].finalId.value < es[k].firstId.value <= es[k].finalId.value
    ensures k > i + 1 ==> es[k].firstId.value > es[i].finalId.value + 1
    ensures es[k].previous.Follows? && (k > i + 1 ==> es[k].previous.id != es[i].finalId.value)
    decreases k
  {
    if k > i + 1 {
      IdsGrow(symbol, es, i, k - 1);
    }
  }

  /**
    Whatever event of a contiguous stream comes next after event `i` was applied: an earlier one is
    stale, the next one is applied, and every later one shows the hole.
   */
  lemma NextOrCaught(b: Book, es: seq<Event>, i: nat, k: nat)
    requires Contiguous(b.symbol, es) && i < |es| && k < |es| && StandsAt(b, es[i])
    ensures Classify(b, es[k]).Stale? <==> k <= i
    ensures Classify(b, es[k]).Applied? <==> k == i + 1
    ensures Classify(b, es[k]).Gap? <==> k > i + 1
  {
    if k < i {
      IdsGrow(b.symbol, es, k, i);
    } else if k > i {
      IdsGrow(b.symbol, es, i, k);
    }
  }

  /** The book after the events numbered `arrivals` came in that order. */
  function Delivered(b: Book, es: seq<Event>, arrivals: seq<nat>, now: real): Book
    requires forall j :: 0 <= j < |arrivals| ==> arrivals[j] < |es|
  {
    if arrivals == [] then b
    else EventBook(Delivered(b, es, arrivals[..|arrivals| - 1], now), es[arrivals[|arrivals| - 1]], now)
  }

  /** How far the stream got: each arrival counts only if it is the very next event. */
  function Reached(i: nat, arrivals: seq<nat>): nat {
    if arrivals == [] then i
    else
      var before := Reached(i, arrivals[..|arrivals| - 1]);
      if arrivals[|arrivals| - 1] == before + 1 then before + 1 else before
  }

  /** The book after events `start` to `end` (exclusive), each one once and in order. */
  function InOrder(b: Book, es: seq<Event>, start: nat, end: nat, now: real): Book
    requires start <= end && end <= |es|
    decreases end
  {
    if start == end then b else EventBook(InOrder(b, es, start, end - 1, now), es[end - 1], now)
  }

  /**
    Events lost, repeated or out of order: the book is always what the events up to the one
    reached, in order, make of it; and the first event past a hole is reported as a gap.
   */
  lemma {:induction false} HoleIsDetected(b: Book, es: seq<Event>, i: nat, arrivals: seq<nat>, now: real)
    requires Contiguous(b.symbol, es) && i < |es| && StandsAt(b, es[i])
    requires forall j :: 0 <= j < |arrivals| ==> arrivals[j] < |es|
    ensures var r, after := Reached(i, arrivals), Delivered(b, es, arrivals, now);
            && i <= r < |es| && after == InOrder(b, es, i + 1, r + 1, now) && StandsAt(after, es[r])
            && forall k :: 0 <= k < |es| ==>
                             && (Classify(after, es[k]).Applied? <==> k == r + 1)
                             && (Classify(after, es[k]).Gap? <==> k > r + 1)
    decreases |arrivals|
  {
    if arrivals != [] {
      var front, last := arrivals[..|arrivals| - 1], arrivals[|arrivals| - 1];
      HoleIsDetected(b, es, i, front, now);
      NextOrCaught(Delivered(b, es, front, now), es, Reached(i, front), last);
    }
    forall k | 0 <= k < |es|
      ensures Classify(Delivered(b, es, arrivals, now), es[k]).Applied? <==> k == Reached(i, arrivals) + 1
      ensures Classify(Delivered(b, es, arrivals, now), es[k]).Gap? <==> k > Reached(i, arrivals) + 1
    {
      NextOrCaught(Delivered(b, es, arrivals, now), es, Reached(i, arrivals), k);
    }
  }

  // ----- The book as an object -----

  lemma SomeLevel(side: Side)
    requires side != map[]
    ensures exists p :: p in side.Keys
  {
    if forall p :: p !in side {
    }
  }

  lemma {:induction false} HighestExists(prices: set<real>)
    requires exists p :: p in prices
    ensures exists p :: p in prices && forall q :: q in prices ==> q <= p
  {
    var x :| x in prices;
    var rest := prices - {x};
    if exists p :: p in rest {
      HighestExists(rest);
      var hi :| hi in rest && forall q :: q in rest ==> q <= hi;
      var top := if x >= hi then x else hi;
      assert top in prices;
      assert forall q :: q in prices ==> q == x || q in rest;
      assert forall q :: q in prices ==> q <= top;
    } else {
      assert forall q :: q in prices ==> q == x || q in rest;
    }
  }

  lemma {:induction false} LowestExists(prices: set<real>)
    requires exists p :: p in prices
    ensures exists p :: p in prices && forall q :: q in prices ==> p <= q
  {
    var x :| x in prices;
    var rest := prices - {x};
    if exists p :: p in rest {
      LowestExists(rest);
      var lo :| lo in rest && forall q :: q in rest ==> lo <= q;
      var bottom := if x <= lo then x else lo;
      assert bottom in prices;
      assert forall q :: q in prices ==> q == x || q in rest;
      assert forall q :: q in prices ==> bottom <= q;
    } else {
      assert forall q :: q in prices ==> q == x || q in rest;
    }
  }

  datatype Quote = Quote(bestBid: real, bestAsk: real, mid: real)

  class DiffOrderBook {
    const symbol: string
    var bids: Side
    var asks: Side
    var lastUpdateId: Option<int>
    var hasAppliedEvent: bool
    var receivedAt: real

    constructor (symbol: string)
      ensures Value() == Book(symbol, map[], map[], None, false, 0.0)
    {
      this.symbol := symbol;
      bids, asks, lastUpdateId, hasAppliedEvent, receivedAt := map[], map[], None, false, 0.0;
    }

    function Value(): Book
      reads this
    {
      Book(symbol, bids, asks, lastUpdateId, hasAppliedEvent, receivedAt)
    }

    method Clear()
      modifies this
      ensures Value() == ResetBook(old(Value()))
    {
      bids, asks, lastUpdateId, hasAppliedEvent, receivedAt := map[], map[], None, false, 0.0;
    }

    method ApplySnapshot(s: Snapshot)
      modifies this
      ensures Value() == SnapshotBook(old(Value()), s)
    {
      bids := ParseLevels(s.bids);
      asks := ParseLevels(s.asks);
      lastUpdateId := Some(s.lastUpdateId);
      hasAppliedEvent := false;
    }

    method ApplyEvent(e: Event, now: real) returns (status: Status)
      modifies this
      ensures status == Classify(old(Value()), e)
      ensures Value() == EventBook(old(Value()), e, now)
    {
      if e.symbol != symbol || e.firstId.None? || e.finalId.None? || e.finalId.value < e.firstId.value {
        return Ignored;
      }
      if lastUpdateId.None? {
        return NotReady;
      }
      var previousId := lastUpdateId.value;
      if e.finalId.value <= previousId {
        return Stale;
      }
      if (hasAppliedEvent && e.previous.Absent?) || e.previous.Unreadable? {
        return Gap;
      }
      if hasAppliedEvent && e.previous.id != previousId {
        return Gap;
      }
      if e.firstId.value > previousId + 1 || !(e.firstId.value <= previousId + 1 <= e.finalId.value) {
        return Gap;
      }
      bids := ApplyUpdates(bids, e.bids);
      asks := ApplyUpdates(asks, e.asks);
      lastUpdateId := Some(e.finalId.value);
      hasAppliedEvent := true;
      receivedAt := now;
      return Status.Applied;
    }

    /** Best prices, or `None` where `metrics` raises a `ValueError`: not synchronized, one-sided or crossed. */
    method Metrics() returns (r: Option<Quote>)
      ensures r.Some? ==>
                && IsBestBid(bids, r.value.bestBid) && IsBestAsk(asks, r.value.bestAsk)
                && 0.0 < r.value.bestBid <= r.value.bestAsk && r.value.mid == (r.value.bestBid + r.value.bestAsk) / 2.0
      ensures r.None? <==>
                || lastUpdateId.None? || bids == map[] || asks == map[]
                || exists b, a :: IsBestBid(bids, b) && IsBestAsk(asks, a) && (b <= 0.0 || a <= 0.0 || b > a)
    {
      if lastUpdateId.None? || bids == map[] || asks == map[] {
        return None;
      }
      SomeLevel(bids);
      SomeLevel(asks);
      HighestExists(bids.Keys);
      LowestExists(asks.Keys);
      var bestBid :| bestBid in bids.Keys && forall p :: p in bids.Keys ==> p <= bestBid;
      var bestAsk :| bestAsk in asks.Keys && forall p :: p in asks.Keys ==> bestAsk <= p;
      assert IsBestBid(bids, bestBid) && IsBestAsk(asks, bestAsk);
      if bestBid <= 0.0 || bestAsk <= 0.0 || bestBid > bestAsk {
        return None;
      }
      return Some(Quote(bestBid, bestAsk, (bestBid + bestAsk) / 2.0));
    }
  }

  method ApplyUpdates(side: Side, rows: seq<Row>) returns (r: Side)
    ensures r == ApplyRows(side, rows)
  {
    r := side;
    for i := 0 to |rows|
      invariant r == ApplyRows(side, rows[..i])
    {
      assert rows[..i + 1][..i] == rows[..i];
      if Usable(rows[i]) {
        if rows[i].quantity <= 0.0 {
          r := r - {rows[i].price};
        } else {
          r := r[rows[i].price := rows[i].quantity];
        }
      }
    }
    assert rows[..|rows|] == rows;
  }

  method ParseLevels(rows: seq<Row>) returns (r: Side)
    ensures r == LevelsOf(rows)
  {
    r := map[];
    for i := 0 to |rows|
      invariant r == LevelsOf(rows[..i])
    {
      assert rows[..i + 1][..i] == rows[..i];
      if Listed(rows[i]) {
        r := r[rows[i].price := rows[i].quantity];
      }
    }
    assert rows[..|rows|] == rows;
  }
}
