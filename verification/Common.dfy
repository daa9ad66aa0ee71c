/** Types and exact decimal arithmetic shared by every component model. */
module Common {

  datatype Option<+T> = None | Some(value: T)

  datatype Result<+T, +E> = Ok(value: T) | Err(error: E)

  datatype PositionSide = Long | Short

  datatype OrderSide = Buy | Sell

  function CloseSide(side: PositionSide): OrderSide {
    if side.Long? then Sell else Buy
  }

  function Abs(x: real): real {
    if x < 0.0 then -x else x
  }

  function Min(x: real, y: real): real {
    if x <= y then x else y
  }

  function Max(x: real, y: real): real {
    if x >= y then x else y
  }

  /** +1 for a long position, -1 for a short one. */
  function Direction(side: PositionSide): real {
    if side.Long? then 1.0 else -1.0
  }

  /** `a` is strictly closer to the market than `b`, as a stop of a `side` position. */
  predicate Tighter(side: PositionSide, a: real, b: real) {
    if side.Long? then a > b else a < b
  }

  predicate AtLeastAsTight(side: PositionSide, a: real, b: real) {
    a == b || Tighter(side, a, b)
  }

  // ----- Rounding to a grid -----

  /** `value` is a whole number of grid units. */
  ghost predicate OnGrid(value: real, unit: real)
  {
    exists k: int :: IsMultiple(value, k, unit)
  }

  predicate IsMultiple(value: real, k: int, unit: real) {
    value == k as real * unit
  }

  function FloorTo(value: real, unit: real): (r: real)
    requires unit > 0.0
    ensures r <= value < r + unit
    ensures OnGrid(r, unit)
  {
    var k := (value / unit).Floor;
    DivBounds(value, unit, k);
    assert IsMultiple(k as real * unit, k, unit);
    k as real * unit
  }

  function CeilTo(value: real, unit: real): (r: real)
    requires unit > 0.0
    ensures r - unit < value <= r
    ensures OnGrid(r, unit)
  {
    var k := (-value / unit).Floor;
    DivBounds(-value, unit, k);
    assert IsMultiple((-k) as real * unit, -k, unit);
    (-k) as real * unit
  }

  /** Half-way values go away from zero; on the positive prices it is used for, that is up. */
  function HalfUpTo(value: real, unit: real): (r: real)
    requires unit > 0.0
    ensures r - unit / 2.0 <= value < r + unit / 2.0
    ensures OnGrid(r, unit)
  {
    FloorTo(value + unit / 2.0, unit)
  }

  lemma DivBounds(value: real, unit: real, k: int)
    requires unit > 0.0
    requires k == (value / unit).Floor
    ensures k as real * unit <= value < k as real * unit + unit
  {
    var q, f := value / unit, k as real;
    var c := f + 1.0;
    assert q * unit == value;
    assert f <= q < c;
    MulStrict(q, c, unit);
    assert value < c * unit;
    assert c * unit == f * unit + unit by { OneMore(f, unit); }
    assert f * unit <= value by { MulMono(f, q, unit); }
  }

  lemma OneMore(a: real, c: real)
    ensures (a + 1.0) * c == a * c + c
  {
  }

  lemma Distribute(a: real, b: real, c: real)
    ensures (a + b) * c == a * c + b * c
  {
  }

  lemma MulMono(a: real, b: real, c: real)
    requires a <= b && c >= 0.0
    ensures a * c <= b * c
  {
    assert (b - a) * c >= 0.0;
  }

  lemma MulStrict(a: real, b: real, c: real)
    requires a < b && c > 0.0
    ensures a * c < b * c
  {
    assert (b - a) * c > 0.0;
  }

  // ----- Quantities and their worth at a price -----

  function Worth(quantity: real, price: real): real {
    quantity * price
  }

  function Units(notional: real, price: real): real
    requires price > 0.0
  {
    notional / price
  }

  lemma WorthOfUnits(notional: real, price: real)
    requires price > 0.0
    ensures Worth(Units(notional, price), price) == notional
  {
  }

  lemma WorthOrdered(x: real, y: real, price: real)
    requires price > 0.0
    ensures x < y <==> Worth(x, price) < Worth(y, price)
    ensures x == y <==> Worth(x, price) == Worth(y, price)
  {
    if x < y {
      MulStrict(x, y, price);
    } else if y < x {
      MulStrict(y, x, price);
    }
  }

  lemma WorthAdds(x: real, y: real, price: real)
    ensures Worth(x + y, price) == Worth(x, price) + Worth(y, price)
    ensures Worth(0.0, price) == 0.0
    ensures Worth(-x, price) == -Worth(x, price)
  {
  }

  // ----- Values on a grid -----

  /** Two grid values less than one unit apart are equal. */
  lemma GridGap(a: real, b: real, unit: real)
    requires unit > 0.0
    requires OnGrid(a, unit) && OnGrid(b, unit)
    requires a - unit < b < a + unit
    ensures a == b
  {
    var i :| IsMultiple(a, i, unit);
    var j :| IsMultiple(b, j, unit);
    var d := (j - i) as real;
    assert b - a == d * unit;
    if j > i {
      MulMono(1.0, d, unit);
    } else if j < i {
      assert (-d) * unit == -(d * unit);
      MulMono(1.0, -d, unit);
    }
  }

  /** A value already on the grid is left alone by either rounding. */
  lemma OnGridFixed(value: real, unit: real)
    requires unit > 0.0 && OnGrid(value, unit)
    ensures FloorTo(value, unit) == value
    ensures CeilTo(value, unit) == value
    ensures HalfUpTo(value, unit) == value
  {
    GridGap(FloorTo(value, unit), value, unit);
    GridGap(CeilTo(value, unit), value, unit);
    GridGap(HalfUpTo(value, unit), value, unit);
  }

  /** Rounding half up never leaves an interval whose ends lie on the grid. */
  lemma HalfUpStaysBetween(low: real, value: real, high: real, unit: real)
    requires unit > 0.0
    requires OnGrid(low, unit) && OnGrid(high, unit)
    requires low <= value <= high
    ensures low <= HalfUpTo(value, unit) <= high
  {
    var r := HalfUpTo(value, unit);
    if r < low {
      GridGap(r, low, unit);
    }
    if r > high {
      GridGap(r, high, unit);
    }
  }

  // ----- Sums over symbols -----

  predicate Distinct<T(==)>(xs: seq<T>) {
    forall i, j :: 0 <= i < j < |xs| ==> xs[i] != xs[j]
  }

  function SumOver(symbols: seq<string>, amount: string -> real): real {
    if symbols == [] then 0.0
    else SumOver(symbols[..|symbols| - 1], amount) + amount(symbols[|symbols| - 1])
  }

  lemma {:induction false} SumSame(symbols: seq<string>, f: string -> real, g: string -> real)
    requires forall s :: s in symbols ==> f(s) == g(s)
    ensures SumOver(symbols, f) == SumOver(symbols, g)
  {
    if symbols != [] {
      SumSame(symbols[..|symbols| - 1], f, g);
    }
  }

  lemma {:induction false} SumUpdated(symbols: seq<string>, f: string -> real, g: string -> real, at: string)
    requires Distinct(symbols) && at in symbols
    requires forall s :: s in symbols && s != at ==> f(s) == g(s)
    ensures SumOver(symbols, g) == SumOver(symbols, f) - f(at) + g(at)
  {
    var front, last := symbols[..|symbols| - 1], symbols[|symbols| - 1];
    if last == at {
      SumSame(front, f, g);
    } else {
      SumUpdated(front, f, g, at);
    }
  }

  lemma {:induction false} SumDifference(symbols: seq<string>, f: string -> real, g: string -> real, h: string -> real)
    requires forall s :: s in symbols ==> f(s) == g(s) - h(s)
    ensures SumOver(symbols, f) == SumOver(symbols, g) - SumOver(symbols, h)
  {
    if symbols != [] {
      SumDifference(symbols[..|symbols| - 1], f, g, h);
    }
  }

  function Total(xs: seq<real>): real {
    if xs == [] then 0.0 else Total(xs[..|xs| - 1]) + xs[|xs| - 1]
  }

  lemma TotalAppended(xs: seq<real>, x: real)
    ensures Total(xs + [x]) == Total(xs) + x
  {
    assert (xs + [x])[..|xs|] == xs;
  }

  function Rest<T>(s: seq<T>): seq<T> {
    if s == [] then [] else s[1..]
  }
}
