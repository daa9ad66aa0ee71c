/**
  Factor ranking and its evaluation: deterministic ranks and percentiles, the blend of baseline
  and factor percentiles, risk multipliers, and the one-pass drawdown.

  Symbols are integers that stand for names in alphabetical order.
 */
module FactorPolicy {
  import opened Common

  // ----- Ranking -----

  /** Sort keys: higher `first` is better, then higher `second`, then the earlier name. */
  datatype Scores = Scores(first: int -> real, second: int -> real)

  function ByValue(value: int -> real): Scores {
    Scores(value, value)
  }

  predicate Before(k: Scores, a: int, b: int) {
    || k.first(a) > k.first(b)
    || (k.first(a) == k.first(b) && (k.second(a) > k.second(b) || (k.second(a) == k.second(b) && a < b)))
  }

  function Inserted(k: Scores, order: seq<int>, x: int): seq<int> {
    if order == [] || Before(k, order[|order| - 1], x) then order + [x]
    else Inserted(k, order[..|order| - 1], x) + [order[|order| - 1]]
  }

  /** Best first. */
  function Ordered(k: Scores, symbols: seq<int>): seq<int> {
    if symbols == [] then [] else Inserted(k, Ordered(k, symbols[..|symbols| - 1]), symbols[|symbols| - 1])
  }

  /** How many symbols are better than `s`. */
  function CountBefore(k: Scores, symbols: seq<int>, s: int): nat {
    if symbols == [] then 0
    else CountBefore(k, symbols[..|symbols| - 1], s) + (if Before(k, symbols[|symbols| - 1], s) then 1 else 0)
  }

  function RankOf(k: Scores, symbols: seq<int>, s: int): nat {
    1 + CountBefore(k, symbols, s)
  }

  predicate Falling(k: Scores, order: seq<int>) {
    forall i, j :: 0 <= i < j < |order| ==> Before(k, order[i], order[j])
  }

  /** Any two different symbols are in one order, and the order is transitive. */
  lemma BeforeIsTotal(k: Scores, a: int, b: int, c: int)
    ensures !Before(k, a, a)
    ensures a != b ==> (Before(k, a, b) <==> !Before(k, b, a))
    ensures Before(k, a, b) && Before(k, b, c) ==> Before(k, a, c)
  {
  }

  lemma {:induction false} InsertedMembers(k: Scores, order: seq<int>, x: int)
    ensures multiset(Inserted(k, order, x)) == multiset(order) + multiset{x}
  {
    hide Before;
    if order != [] && !Before(k, order[|order| - 1], x) {
      assert order == order[..|order| - 1] + [order[|order| - 1]];
      InsertedMembers(k, order[..|order| - 1], x);
    }
  }

  lemma {:induction false} InsertedCounts(k: Scores, order: seq<int>, x: int, s: int)
    ensures CountBefore(k, Inserted(k, order, x), s) == CountBefore(k, order, s) + (if Before(k, x, s) then 1 else 0)
  {
    hide Before;
    var r := Inserted(k, order, x);
    if order == [] || Before(k, order[|order| - 1], x) {
      assert r[..|r| - 1] == order;
    } else {
      InsertedCounts(k, order[..|order| - 1], x, s);
      assert r[..|r| - 1] == Inserted(k, order[..|order| - 1], x);
    }
  }

  lemma {:induction false} InsertedFalls(k: Scores, order: seq<int>, x: int)
    requires Falling(k, order) && x !in order
    ensures Falling(k, Inserted(k, order, x))
  {
    hide Before;
    if order == [] || Before(k, order[|order| - 1], x) {
      AppendFalls(k, order, x);
    } else {
      var front, last := order[..|order| - 1], order[|order| - 1];
      InsertedFalls(k, front, x);
      InsertedMembers(k, front, x);
      var rest := Inserted(k, front, x);
      BeforeIsTotal(k, x, last, last);
      if rest != [] {
        assert rest[|rest| - 1] in multiset(rest);
      }
      AppendFalls(k, rest, last);
    }
  }

  lemma SameMembers(a: seq<int>, b: seq<int>)
    requires multiset(a) == multiset(b)
    ensures |a| == |b| && forall x :: x in a <==> x in b
  {
    assert |multiset(a)| == |a| && |multiset(b)| == |b|;
    forall x
      ensures x in a <==> x in b
    {
      assert x in a <==> x in multiset(a);
      assert x in b <==> x in multiset(b);
    }
  }

  lemma AppendFalls(k: Scores, order: seq<int>, x: int)
    requires Falling(k, order) && (order == [] || Before(k, order[|order| - 1], x))
    ensures Falling(k, order + [x])
  {
    hide Before;
    forall i | 0 <= i < |order|
      ensures Before(k, order[i], x)
    {
      if i < |order| - 1 {
        BeforeIsTotal(k, order[i], order[|order| - 1], x);
      }
    }
  }

  /** The order holds exactly the symbols, best first, and counts the better ones like any listing of them. */
  lemma {:induction false} OrderedMeaning(k: Scores, symbols: seq<int>, s: int)
    requires Distinct(symbols)
    ensures Falling(k, Ordered(k, symbols))
    ensures multiset(Ordered(k, symbols)) == multiset(symbols)
    ensures CountBefore(k, Ordered(k, symbols), s) == CountBefore(k, symbols, s)
  {
    if symbols != [] {
      hide Before, Inserted, Falling;
      var front, last := symbols[..|symbols| - 1], symbols[|symbols| - 1];
      assert symbols == front + [last];
      OrderedMeaning(k, front, s);
      SameMembers(Ordered(k, front), front);
      InsertedFalls(k, Ordered(k, front), last);
      InsertedMembers(k, Ordered(k, front), last);
      InsertedCounts(k, Ordered(k, front), last, s);
    }
  }

  lemma {:induction false} CountInOrder(k: Scores, order: seq<int>, i: nat, upTo: nat)
    requires Falling(k, order) && i < |order| && upTo <= |order|
    ensures CountBefore(k, order[..upTo], order[i]) == if upTo <= i then upTo else i
  {
    if upTo > 0 {
      assert order[..upTo][..upTo - 1] == order[..upTo - 1];
      CountInOrder(k, order, i, upTo - 1);
      BeforeIsTotal(k, order[i], order[upTo - 1], order[i]);
      if upTo - 1 > i {
        assert Before(k, order[i], order[upTo - 1]);
      }
    }
  }

  /** The place in the order is the rank: one more than the number of better symbols. */
  lemma RankIsPlace(k: Scores, symbols: seq<int>, i: nat)
    requires Distinct(symbols) && i < |symbols|
    ensures |Ordered(k, symbols)| == |symbols|
    ensures Ordered(k, symbols)[i] in symbols && RankOf(k, symbols, Ordered(k, symbols)[i]) == i + 1
  {
    hide Before, Falling, Ordered, Distinct;
    var order := Ordered(k, symbols);
    OrderedMeaning(k, symbols, 0);
    SameMembers(order, symbols);
    OrderedMeaning(k, symbols, order[i]);
    CountInOrder(k, order, i, |order|);
    assert order[..|order|] == order;
  }

  /** Better means smaller rank; so different symbols have different ranks. */
  lemma {:induction false} BetterRanksLower(k: Scores, symbols: seq<int>, a: int, b: int)
    requires a in symbols && Before(k, a, b)
    ensures RankOf(k, symbols, a) < RankOf(k, symbols, b)
  {
    var front, last := symbols[..|symbols| - 1], symbols[|symbols| - 1];
    BeforeIsTotal(k, last, a, b);
    BeforeIsTotal(k, a, a, b);
    if a in front {
      BetterRanksLower(k, front, a, b);
    } else {
      NoBetterCountsMore(k, front, a, b);
    }
  }

  lemma {:induction false} NoBetterCountsMore(k: Scores, symbols: seq<int>, a: int, b: int)
    requires Before(k, a, b)
    ensures CountBefore(k, symbols, a) <= CountBefore(k, symbols, b)
  {
    if symbols != [] {
      BeforeIsTotal(k, symbols[|symbols| - 1], a, b);
      NoBetterCountsMore(k, symbols[..|symbols| - 1], a, b);
    }
  }

  lemma {:induction false} RankInRange(k: Scores, symbols: seq<int>, s: int)
    requires s in symbols
    ensures 1 <= RankOf(k, symbols, s) <= |symbols|
  {
    var front := symbols[..|symbols| - 1];
    BeforeIsTotal(k, s, s, s);
    if s in front {
      RankInRange(k, front, s);
    } else {
      CountAtMost(k, front, s);
    }
  }

  lemma {:induction false} CountAtMost(k: Scores, symbols: seq<int>, s: int)
    ensures CountBefore(k, symbols, s) <= |symbols|
  {
    if symbols != [] {
      CountAtMost(k, symbols[..|symbols| - 1], s);
    }
  }

  /** Ranks are a bijection onto 1..n: every rank is taken, and by one symbol only. */
  lemma RanksAreBijective(k: Scores, symbols: seq<int>, rank: nat, a: int, b: int)
    requires Distinct(symbols)
    ensures 1 <= rank <= |symbols| ==> exists s :: s in symbols && RankOf(k, symbols, s) == rank
    ensures a in symbols && b in symbols && RankOf(k, symbols, a) == RankOf(k, symbols, b) ==> a == b
    ensures a in symbols ==> 1 <= RankOf(k, symbols, a) <= |symbols|
  {
    if 1 <= rank <= |symbols| {
      RankIsPlace(k, symbols, rank - 1);
    }
    if a in symbols {
      RankInRange(k, symbols, a);
    }
    if a in symbols && b in symbols && a != b {
      BeforeIsTotal(k, a, b, a);
      if Before(k, a, b) {
        BetterRanksLower(k, symbols, a, b);
      } else {
        BetterRanksLower(k, symbols, b, a);
      }
    }
  }

  // ----- Rank changes -----

  /** Sum of the ranks that the symbols of `part` have among `symbols`. */
  function RankSum(k: Scores, symbols: seq<int>, part: seq<int>): nat {
    if part == [] then 0 else RankSum(k, symbols, part[..|part| - 1]) + RankOf(k, symbols, part[|part| - 1])
  }

  function RankChangeSum(baseline: Scores, combined: Scores, symbols: seq<int>, part: seq<int>): int {
    if part == [] then 0
    else
      var s := part[|part| - 1];
      RankChangeSum(baseline, combined, symbols, part[..|part| - 1]) + (RankOf(baseline, symbols, s) - RankOf(combined, symbols, s))
  }

  lemma {:induction false} NewcomerShifts(k: Scores, symbols: seq<int>, x: int, part: seq<int>)
    requires x !in part
    ensures RankSum(k, symbols + [x], part) + CountBefore(k, part, x) == RankSum(k, symbols, part) + |part|
  {
    if part != [] {
      var front, s := part[..|part| - 1], part[|part| - 1];
      NewcomerShifts(k, symbols, x, front);
      assert (symbols + [x])[..|symbols|] == symbols;
      BeforeIsTotal(k, x, s, x);
    }
  }

  lemma {:induction false} RankSumIsTriangular(k: Scores, symbols: seq<int>)
    requires Distinct(symbols)
    ensures 2 * RankSum(k, symbols, symbols) == |symbols| * (|symbols| + 1)
  {
    if symbols != [] {
      var front, x := symbols[..|symbols| - 1], symbols[|symbols| - 1];
      assert symbols == front + [x];
      RankSumIsTriangular(k, front);
      NewcomerShifts(k, front, x, front);
      BeforeIsTotal(k, x, x, x);
      hide Before, CountBefore;
      Triangle(|front|);
    }
  }

  lemma Triangle(n: nat)
    ensures (n + 1) * (n + 2) == n * (n + 1) + 2 * (n + 1)
  {
  }

  lemma {:induction false} ChangeIsDifference(baseline: Scores, combined: Scores, symbols: seq<int>, part: seq<int>)
    ensures RankChangeSum(baseline, combined, symbols, part) == RankSum(baseline, symbols, part) - RankSum(combined, symbols, part)
  {
    if part != [] {
      ChangeIsDifference(baseline, combined, symbols, part[..|part| - 1]);
    }
  }

  /** What some symbols gain in rank, others lose. */
  lemma RankChangesSumToZero(baseline: Scores, combined: Scores, symbols: seq<int>)
    requires Distinct(symbols)
    ensures RankChangeSum(baseline, combined, symbols, symbols) == 0
  {
    ChangeIsDifference(baseline, combined, symbols, symbols);
    RankSumIsTriangular(baseline, symbols);
    RankSumIsTriangular(combined, symbols);
  }

  // ----- Percentiles and the blend -----

  function PercentileOfRank(rank: int, n: int): real {
    if n <= 1 then 0.5 else (n - rank) as real / (n - 1) as real
  }

  function PercentileOf(k: Scores, symbols: seq<int>, s: int): real {
    PercentileOfRank(RankOf(k, symbols, s), |symbols|)
  }

  lemma PercentileFalls(n: int, p: int, q: int)
    requires n >= 2 && 1 <= p <= n && 1 <= q <= n
    ensures 0.0 <= PercentileOfRank(p, n) <= 1.0
    ensures p < q <==> PercentileOfRank(p, n) > PercentileOfRank(q, n)
  {
    var d := (n - 1) as real;
    var x, y := (n - p) as real / d, (n - q) as real / d;
    assert Worth(x, d) == (n - p) as real && Worth(y, d) == (n - q) as real;
    hide Worth;
    WorthOrdered(x, y, d);
    WorthOrdered(y, x, d);
    WorthOrdered(x, 0.0, d);
    WorthOrdered(1.0, x, d);
    assert Worth(0.0, d) == 0.0 && Worth(1.0, d) == d by {
      WorthUnits(d);
    }
  }

  lemma WorthUnits(d: real)
    ensures Worth(0.0, d) == 0.0 && Worth(1.0, d) == d
  {
  }

  /** Percentiles lie in [0, 1] and fall exactly as symbols get worse. */
  lemma PercentileOrder(k: Scores, symbols: seq<int>, a: int, b: int)
    requires Distinct(symbols) && a in symbols && b in symbols
    ensures 0.0 <= PercentileOf(k, symbols, a) <= 1.0
    ensures Before(k, a, b) <==> PercentileOf(k, symbols, a) > PercentileOf(k, symbols, b)
    ensures a != b ==> PercentileOf(k, symbols, a) != PercentileOf(k, symbols, b)
  {
    hide PercentileOfRank;
    RankInRange(k, symbols, a);
    RankInRange(k, symbols, b);
    BeforeIsTotal(k, a, b, a);
    BeforeIsTotal(k, b, a, b);
    if a == b {
      if |symbols| >= 2 {
        PercentileFalls(|symbols|, RankOf(k, symbols, a), RankOf(k, symbols, a));
      } else {
        OnePercentile(RankOf(k, symbols, a), |symbols|);
      }
    } else {
      TwoSymbols(symbols, a, b);
      if Before(k, a, b) {
        BetterRanksLower(k, symbols, a, b);
      } else {
        BetterRanksLower(k, symbols, b, a);
      }
      PercentileFalls(|symbols|, RankOf(k, symbols, a), RankOf(k, symbols, b));
      PercentileFalls(|symbols|, RankOf(k, symbols, b), RankOf(k, symbols, a));
    }
  }

  lemma OnePercentile(rank: int, n: int)
    ensures n <= 1 ==> PercentileOfRank(rank, n) == 0.5
  {
  }

  lemma TwoSymbols(symbols: seq<int>, a: int, b: int)
    requires a in symbols && b in symbols && a != b
    ensures |symbols| >= 2
  {
  }

  function Blend(weight: real, baseline: real, factor: real): real {
    Worth(baseline, 1.0 - weight) + Worth(factor, weight)
  }

  function CombinedScore(baseline: Scores, factor: Scores, symbols: seq<int>, weight: real): int -> real {
    s => Blend(weight, PercentileOf(baseline, symbols, s), PercentileOf(factor, symbols, s))
  }

  /** By blended percentile, then by baseline score, then by name. */
  function Combined(baseline: Scores, factor: Scores, symbols: seq<int>, weight: real): Scores {
    Scores(CombinedScore(baseline, factor, symbols, weight), baseline.first)
  }

  lemma BlendEnds(baseline: real, factor: real)
    ensures Blend(0.0, baseline, factor) == baseline && Blend(1.0, baseline, factor) == factor
  {
  }

  lemma WorthGrows(x: real, y: real, weight: real)
    requires x < y && weight >= 0.0
    ensures Worth(x, weight) <= Worth(y, weight)
    ensures weight > 0.0 ==> Worth(x, weight) < Worth(y, weight)
  {
    WorthAdds(0.0, 0.0, weight);
    if weight > 0.0 {
      WorthOrdered(x, y, weight);
    }
  }

  lemma BlendIsMonotone(weight: real, b0: real, f0: real, b1: real, f1: real)
    requires 0.0 <= weight <= 1.0 && b0 > b1 && f0 > f1
    ensures Blend(weight, b0, f0) > Blend(weight, b1, f1)
  {
    WorthGrows(b1, b0, 1.0 - weight);
    WorthGrows(f1, f0, weight);
  }

  /** A symbol better on both counts is better combined, at any weight. */
  lemma BetterOnBothIsBetter(baseline: Scores, factor: Scores, symbols: seq<int>, weight: real, a: int, b: int)
    requires Distinct(symbols) && a in symbols && b in symbols && 0.0 <= weight <= 1.0
    requires Before(baseline, a, b) && Before(factor, a, b)
    ensures Before(Combined(baseline, factor, symbols, weight), a, b)
    ensures RankOf(Combined(baseline, factor, symbols, weight), symbols, a) <
            RankOf(Combined(baseline, factor, symbols, weight), symbols, b)
  {
    hide Blend, PercentileOf;
    PercentileOrder(baseline, symbols, a, b);
    PercentileOrder(factor, symbols, a, b);
    BlendIsMonotone(weight, PercentileOf(baseline, symbols, a), PercentileOf(factor, symbols, a),
                    PercentileOf(baseline, symbols, b), PercentileOf(factor, symbols, b));
    BetterRanksLower(Combined(baseline, factor, symbols, weight), symbols, a, b);
  }

  /** The two keys order the given symbols alike. */
  ghost predicate OrderAlike(k: Scores, l: Scores, symbols: seq<int>) {
    forall a, b :: a in symbols && b in symbols ==> (Before(k, a, b) <==> Before(l, a, b))
  }

  lemma {:induction false} SameOrder(k: Scores, l: Scores, symbols: seq<int>)
    requires Distinct(symbols) && OrderAlike(k, l, symbols)
    ensures Ordered(k, symbols) == Ordered(l, symbols)
  {
    hide Before, Inserted, Falling;
    if symbols != [] {
      var front, last := symbols[..|symbols| - 1], symbols[|symbols| - 1];
      SameOrder(k, l, front);
      SameLastStep(k, l, front, last, symbols);
    }
  }

  lemma SameLastStep(k: Scores, l: Scores, front: seq<int>, last: int, symbols: seq<int>)
    requires Distinct(front) && symbols == front + [last] && OrderAlike(k, l, symbols)
    ensures Inserted(k, Ordered(k, front), last) == Inserted(l, Ordered(k, front), last)
  {
    hide Before, Inserted, Falling, Ordered, Distinct;
    OrderedMeaning(k, front, last);
    SameMembers(Ordered(k, front), front);
    SameInsertion(k, l, Ordered(k, front), last);
  }

  lemma {:induction false} SameInsertion(k: Scores, l: Scores, order: seq<int>, x: int)
    requires forall i :: 0 <= i < |order| ==> (Before(k, order[i], x) <==> Before(l, order[i], x))
    ensures Inserted(k, order, x) == Inserted(l, order, x)
  {
    if order != [] && !Before(k, order[|order| - 1], x) {
      SameInsertion(k, l, order[..|order| - 1], x);
    }
  }

  /** Weight 0 leaves the baseline order, weight 1 gives the factor order. */
  lemma WeightEnds(baseline: int -> real, factor: Scores, symbols: seq<int>)
    requires Distinct(symbols)
    ensures Ordered(Combined(ByValue(baseline), factor, symbols, 0.0), symbols) == Ordered(ByValue(baseline), symbols)
    ensures Ordered(Combined(ByValue(baseline), factor, symbols, 1.0), symbols) == Ordered(factor, symbols)
  {
    hide Blend, PercentileOf;
    var base := ByValue(baseline);
    forall a, b | a in symbols && b in symbols
      ensures Before(Combined(base, factor, symbols, 0.0), a, b) <==> Before(base, a, b)
      ensures Before(Combined(base, factor, symbols, 1.0), a, b) <==> Before(factor, a, b)
    {
      PercentileOrder(base, symbols, a, b);
      PercentileOrder(factor, symbols, a, b);
      BlendEnds(PercentileOf(base, symbols, a), PercentileOf(factor, symbols, a));
      BlendEnds(PercentileOf(base, symbols, b), PercentileOf(factor, symbols, b));
      BeforeIsTotal(factor, a, b, a);
      BeforeIsTotal(base, a, b, a);
    }
    SameOrder(Combined(base, factor, symbols, 0.0), base, symbols);
    SameOrder(Combined(base, factor, symbols, 1.0), factor, symbols);
  }

  // ----- Risk multipliers -----

  /** Full factor coverage earns a multiplier by percentile; anything less gets the minimum. */
  function RiskMultiplier(minimum: real, percentile: real, covered: bool): real {
    Min(1.0, if covered then minimum + Worth(percentile, 1.0 - minimum) else minimum)
  }

  lemma RiskMultiplierRange(minimum: real, p: real, q: real, covered: bool)
    requires 0.0 < minimum <= 1.0 && 0.0 <= p <= q <= 1.0
    ensures minimum <= RiskMultiplier(minimum, p, covered) <= RiskMultiplier(minimum, q, covered) <= 1.0
    ensures RiskMultiplier(minimum, 1.0, true) == 1.0 && RiskMultiplier(minimum, 0.0, true) == minimum
    ensures RiskMultiplier(minimum, p, true) == minimum * (1.0 - p) + p && RiskMultiplier(minimum, p, false) == minimum
  {
    assert Worth(p, 1.0 - minimum) == p - minimum * p;
    WorthUnits(1.0 - minimum);
    WorthNotFalling(0.0, p, 1.0 - minimum);
    WorthNotFalling(p, q, 1.0 - minimum);
    WorthNotFalling(q, 1.0, 1.0 - minimum);
    hide Worth;
  }

  lemma WorthNotFalling(x: real, y: real, weight: real)
    requires x <= y && weight >= 0.0
    ensures Worth(x, weight) <= Worth(y, weight)
  {
    MulMono(x, y, weight);
  }

  // ----- The overlays -----

  datatype PolicyError = EmptyCrossSection | NoFactors | NoResearchRun | InvalidCrossSection | NoValidFactors

  /** A factor of the frozen policy; definitions that are no mapping or have no key are `Unusable`. */
  datatype Factor = Unusable | Factor(key: string, negative: bool)

  /** Insertion-ordered contributions of one symbol, one per key. */
  type Contributions = seq<(string, real)>

  datatype Overlay = Overlay(
    baselinePercentile: real, factorScore: real, factorPercentile: real, combinedScore: real, coverage: real,
    contributions: Contributions, riskMultiplier: real, baselineRank: int, factorRank: int, combinedRank: int,
    rankChange: int)

  function Lookup(values: map<int, real>): int -> real {
    s => if s in values then values[s] else 0.0
  }

  function Selected(raw: seq<Factor>): (r: seq<Factor>)
    ensures forall f :: f in r <==> f in raw && f.Factor?
    ensures |r| <= |raw|
  {
    if raw == [] then []
    else
      var front, last := Selected(raw[..|raw| - 1]), raw[|raw| - 1];
      if last.Factor? then front + [last] else front
  }

  /** A key that is there keeps its place and gets a new value. */
  function Put(entries: Contributions, key: string, value: real): Contributions {
    if entries == [] then [(key, value)]
    else if entries[0].0 == key then [(key, value)] + entries[1..]
    else [entries[0]] + Put(entries[1..], key, value)
  }

  predicate HasKey(entries: Contributions, key: string) {
    exists i :: 0 <= i < |entries| && entries[i].0 == key
  }

  predicate DistinctKeys(entries: Contributions) {
    forall i, j :: 0 <= i < j < |entries| ==> entries[i].0 != entries[j].0
  }

  lemma {:induction false} PutMeans(entries: Contributions, key: string, value: real)
    requires DistinctKeys(entries)
    ensures var r := Put(entries, key, value);
            && DistinctKeys(r) && (key, value) in r
            && (forall k :: HasKey(r, k) <==> k == key || HasKey(entries, k))
            && (forall e :: e in r && e.0 != key ==> e in entries)
            && |r| == |entries| + (if HasKey(entries, key) then 0 else 1)
  {
    if entries != [] {
      var rest := entries[1..];
      assert entries == [entries[0]] + rest;
      assert forall i :: 0 <= i < |rest| ==> rest[i] == entries[i + 1];
      if entries[0].0 == key {
        assert !HasKey(rest, key);
        forall k
          ensures HasKey(Put(entries, key, value), k) <==> k == key || HasKey(entries, k)
        {
          HasKeyCons((key, value), rest, k);
          HasKeyCons(entries[0], rest, k);
        }
        hide HasKey;
      } else {
        PutMeans(rest, key, value);
        PutCons(entries[0], rest, key, value);
      }
    }
  }

  lemma PutCons(head: (string, real), rest: Contributions, key: string, value: real)
    requires head.0 != key && !HasKey(rest, head.0)
    requires var r := Put(rest, key, value);
             && DistinctKeys(r) && (key, value) in r
             && (forall k :: HasKey(r, k) <==> k == key || HasKey(rest, k))
    ensures var r := [head] + Put(rest, key, value);
            && DistinctKeys(r) && (key, value) in r
            && (forall k :: HasKey(r, k) <==> k == key || HasKey([head] + rest, k))
  {
    var tail := Put(rest, key, value);
    var r := [head] + tail;
    assert forall i :: 1 <= i < |r| ==> r[i] == tail[i - 1];
    forall k
      ensures HasKey(r, k) <==> k == key || HasKey([head] + rest, k)
    {
      HasKeyCons(head, tail, k);
      HasKeyCons(head, rest, k);
    }
    assert !HasKey(tail, head.0);
  }

  lemma HasKeyCons(head: (string, real), rest: Contributions, k: string)
    ensures HasKey([head] + rest, k) <==> head.0 == k || HasKey(rest, k)
  {
    var all := [head] + rest;
    assert all[0] == head;
    if i :| 0 <= i < |rest| && rest[i].0 == k {
      assert all[i + 1].0 == k;
    }
    if i :| 0 <= i < |all| && all[i].0 == k {
      assert i == 0 || rest[i - 1].0 == k;
    }
  }

  function ScoresOf(zscores: map<string, map<int, real>>, key: string): map<int, real> {
    if key in zscores then zscores[key] else map[]
  }

  /** The oriented z-scores of one symbol; a factor without a score for it leaves it alone. */
  function ContributionsOf(raw: seq<Factor>, zscores: map<string, map<int, real>>, s: int): Contributions {
    if raw == [] then []
    else
      var front, last := ContributionsOf(raw[..|raw| - 1], zscores, s), raw[|raw| - 1];
      if last.Factor? && s in ScoresOf(zscores, last.key)
      then Put(front, last.key, Oriented(last, ScoresOf(zscores, last.key)[s])) else front
  }

  function Oriented(f: Factor, score: real): real
    requires f.Factor?
  {
    if f.negative then -score else score
  }

  /** Factor `i` is the last of its key. */
  predicate LastOfKey(raw: seq<Factor>, key: string, i: int) {
    && 0 <= i < |raw| && raw[i].Factor? && raw[i].key == key
    && forall j :: i < j < |raw| && raw[j].Factor? ==> raw[j].key != key
  }

  /** An entry comes from the last factor of its key. */
  ghost predicate FromLast(raw: seq<Factor>, zscores: map<string, map<int, real>>, s: int, e: (string, real)) {
    s in ScoresOf(zscores, e.0)
    && exists i :: LastOfKey(raw, e.0, i) && e.1 == Oriented(raw[i], ScoresOf(zscores, e.0)[s])
  }

  lemma FromLastStays(front: seq<Factor>, last: Factor, zscores: map<string, map<int, real>>, s: int, e: (string, real))
    requires FromLast(front, zscores, s, e) && (last.Factor? ==> last.key != e.0)
    ensures FromLast(front + [last], zscores, s, e)
  {
    var i :| LastOfKey(front, e.0, i) && e.1 == Oriented(front[i], ScoresOf(zscores, e.0)[s]);
    assert LastOfKey(front + [last], e.0, i);
  }

  lemma FromLastNew(front: seq<Factor>, last: Factor, zscores: map<string, map<int, real>>, s: int)
    requires last.Factor? && s in ScoresOf(zscores, last.key)
    ensures FromLast(front + [last], zscores, s, (last.key, Oriented(last, ScoresOf(zscores, last.key)[s])))
  {
    assert LastOfKey(front + [last], last.key, |front|);
  }

  /** A symbol has one contribution per key it has a score for, oriented by the last factor of that key. */
  lemma {:induction false} ContributionsMeaning(raw: seq<Factor>, zscores: map<string, map<int, real>>, s: int)
    ensures var r := ContributionsOf(raw, zscores, s);
            && DistinctKeys(r) && |r| <= |Selected(raw)|
            && (forall k :: HasKey(r, k) <==>
                              s in ScoresOf(zscores, k) && exists f :: f in Selected(raw) && f.key == k)
            && (forall e :: e in r ==> FromLast(raw, zscores, s, e))
  {
    hide HasKey, DistinctKeys, Selected, Put, Oriented, ScoresOf, FromLast;
    if raw == [] {
      NoContributions(zscores, s);
    } else {
      var front, last := raw[..|raw| - 1], raw[|raw| - 1];
      assert raw == front + [last];
      ContributionsMeaning(front, zscores, s);
      var before, r := ContributionsOf(front, zscores, s), ContributionsOf(raw, zscores, s);
      SelectedGrows(raw);
      if last.Factor? && s in ScoresOf(zscores, last.key) {
        var newest := (last.key, Oriented(last, ScoresOf(zscores, last.key)[s]));
        PutMeans(before, last.key, newest.1);
        FromLastNew(front, last, zscores, s);
        forall e | e in r
          ensures FromLast(raw, zscores, s, e)
        {
          if e.0 == last.key {
            SameKeySameEntry(r, e, newest);
          } else {
            FromLastStays(front, last, zscores, s, e);
          }
        }
      } else {
        forall e | e in r
          ensures FromLast(raw, zscores, s, e)
        {
          ScoredFromLast(front, zscores, s, e);
          FromLastStays(front, last, zscores, s, e);
        }
      }
    }
  }

  lemma ScoredFromLast(raw: seq<Factor>, zscores: map<string, map<int, real>>, s: int, e: (string, real))
    requires FromLast(raw, zscores, s, e)
    ensures s in ScoresOf(zscores, e.0)
  {
  }

  lemma NoContributions(zscores: map<string, map<int, real>>, s: int)
    ensures DistinctKeys([]) && Selected([]) == [] && forall k :: !HasKey([], k)
  {
  }

  lemma SameKeySameEntry(entries: Contributions, a: (string, real), b: (string, real))
    requires DistinctKeys(entries) && a in entries && b in entries && a.0 == b.0
    ensures a == b
  {
    var i :| 0 <= i < |entries| && entries[i] == a;
    var j :| 0 <= j < |entries| && entries[j] == b;
  }

  lemma SelectedGrows(raw: seq<Factor>)
    requires raw != []
    ensures var front, last := Selected(raw[..|raw| - 1]), raw[|raw| - 1];
            && |Selected(raw)| == |front| + (if last.Factor? then 1 else 0)
            && forall f :: f in Selected(raw) <==> f in front || (f == last && last.Factor?)
  {
  }

  function Sum(entries: Contributions): real {
    if entries == [] then 0.0 else Sum(entries[..|entries| - 1]) + entries[|entries| - 1].1
  }

  /** A contribution counts in full, wherever it stands: a change of one changes the sum by as much. */
  lemma {:induction false} SumMeaning(entries: Contributions, k: nat, value: real)
    requires k < |entries|
    ensures Sum(entries[k := (entries[k].0, value)]) == Sum(entries) + value - entries[k].1
    ensures Sum([]) == 0.0
  {
    var front, changed := entries[..|entries| - 1], entries[k := (entries[k].0, value)];
    if k < |entries| - 1 {
      SumMeaning(front, k, value);
      assert changed[..|entries| - 1] == front[k := (front[k].0, value)];
    } else {
      assert changed[..|entries| - 1] == front;
    }
  }

  predicate KeysDistinct(raw: seq<Factor>) {
    forall i, j :: 0 <= i < j < |raw| && raw[i].Factor? && raw[j].Factor? ==> raw[i].key != raw[j].key
  }

  /**
    A symbol is fully covered exactly when it has a score for every factor and no key is selected
    twice: a repeated key counts twice in the number of factors but once among the contributions.
   */
  lemma {:induction false} CoveredIff(raw: seq<Factor>, zscores: map<string, map<int, real>>, s: int)
    ensures |ContributionsOf(raw, zscores, s)| == |Selected(raw)| <==>
            KeysDistinct(raw) && forall f :: f in Selected(raw) ==> s in ScoresOf(zscores, f.key)
  {
    hide KeysDistinct, HasKey, DistinctKeys, Put, Oriented, ScoresOf, FromLast;
    if raw == [] {
      NoKeys();
    } else {
      var front, last := raw[..|raw| - 1], raw[|raw| - 1];
      assert raw == front + [last];
      CoveredIff(front, zscores, s);
      ContributionsMeaning(front, zscores, s);
      SelectedGrows(raw);
      KeysDistinctGrows(front, last);
      hide Selected;
      var before := ContributionsOf(front, zscores, s);
      if last.Factor? && s in ScoresOf(zscores, last.key) {
        PutMeans(before, last.key, Oriented(last, ScoresOf(zscores, last.key)[s]));
      }
    }
  }

  lemma NoKeys()
    ensures KeysDistinct([])
  {
  }

  lemma KeysDistinctGrows(front: seq<Factor>, last: Factor)
    ensures KeysDistinct(front + [last]) <==>
            KeysDistinct(front) && (last.Factor? ==> !exists f :: f in Selected(front) && f.key == last.key)
  {
    var raw := front + [last];
    assert forall i :: 0 <= i < |front| ==> raw[i] == front[i];
    assert raw[|front|] == last;
    if last.Factor? && exists f :: f in Selected(front) && f.key == last.key {
      var f :| f in Selected(front) && f.key == last.key;
      var i :| 0 <= i < |front| && front[i] == f;
      assert raw[i].Factor? && raw[i].key == raw[|front|].key;
    }
    if KeysDistinct(front) && (last.Factor? ==> !exists f :: f in Selected(front) && f.key == last.key) {
      forall i, j | 0 <= i < j < |raw| && raw[i].Factor? && raw[j].Factor?
        ensures raw[i].key != raw[j].key
      {
        if j == |front| {
          assert front[i] in front && front[i] in Selected(front);
        }
      }
    }
  }

  method Ranks(k: Scores, symbols: seq<int>) returns (ranks: map<int, int>)
    requires Distinct(symbols)
    ensures forall s :: s in ranks <==> s in symbols
    ensures forall s :: s in symbols ==> ranks[s] == RankOf(k, symbols, s)
  {
    hide Before, Ordered, Distinct, RankOf, Falling;
    var ordered := Ordered(k, symbols);
    OrderedMeaning(k, symbols, 0);
    SameMembers(ordered, symbols);
    ranks := map[];
    for i := 0 to |ordered|
      invariant forall s :: s in ranks <==> s in ordered[..i]
      invariant forall s :: s in ranks ==> ranks[s] == RankOf(k, symbols, s)
    {
      RankIsPlace(k, symbols, i);
      ranks := ranks[ordered[i] := i + 1];
    }
    assert ordered[..|ordered|] == ordered;
  }

  method DeterministicPercentiles(k: Scores, symbols: seq<int>)
    returns (r: Result<(map<int, real>, map<int, int>), PolicyError>)
    requires Distinct(symbols)
    ensures r.Err? <==> symbols == []
    ensures r.Ok? ==>
              && (forall s :: s in r.value.0 <==> s in symbols) && (forall s :: s in r.value.1 <==> s in symbols)
              && forall s :: s in symbols ==>
                               r.value.0[s] == PercentileOf(k, symbols, s) && r.value.1[s] == RankOf(k, symbols, s)
  {
    hide Before, RankOf, Distinct, PercentileOfRank;
    if symbols == [] {
      return Err(EmptyCrossSection);
    }
    var ranks := Ranks(k, symbols);
    var percentiles := map s | s in ranks :: PercentileOfRank(ranks[s], |symbols|);
    return Ok((percentiles, ranks));
  }

  /** What an overlay of one symbol has to be. */
  ghost predicate IsOverlay(
    o: Overlay, s: int, symbols: seq<int>, baseline: Scores, factor: Scores, combined: Scores, contributions: Contributions,
    factors: nat, minimum: real)
    requires factors > 0
  {
    && o.baselineRank == RankOf(baseline, symbols, s) && o.baselinePercentile == PercentileOf(baseline, symbols, s)
    && o.factorRank == RankOf(factor, symbols, s) && o.factorPercentile == PercentileOf(factor, symbols, s)
    && o.combinedRank == RankOf(combined, symbols, s) && o.combinedScore == combined.first(s)
    && o.rankChange == o.baselineRank - o.combinedRank
    && o.factorScore == factor.first(s)
    && o.contributions == contributions
    && o.coverage == |contributions| as real / factors as real
    && o.riskMultiplier == RiskMultiplier(minimum, o.factorPercentile, |contributions| == factors)
    && minimum <= o.riskMultiplier <= 1.0
  }

  method OverlayFor(
    s: int, symbols: seq<int>, baseline: Scores, factor: Scores, weight: real, contributions: Contributions, factors: nat,
    minimum: real, basePct: real, baseRank: int, factorPct: real, factorRank: int, combinedRank: int)
    returns (o: Overlay)
    requires Distinct(symbols) && s in symbols && factors > 0 && 0.0 < minimum <= 1.0
    requires basePct == PercentileOf(baseline, symbols, s) && baseRank == RankOf(baseline, symbols, s)
    requires factorPct == PercentileOf(factor, symbols, s) && factorRank == RankOf(factor, symbols, s)
    requires combinedRank == RankOf(Combined(baseline, factor, symbols, weight), symbols, s)
    ensures IsOverlay(o, s, symbols, baseline, factor, Combined(baseline, factor, symbols, weight), contributions, factors,
                      minimum)
  {
    hide RankOf, PercentileOf, Distinct, Before, Blend, RiskMultiplier;
    PercentileOrder(factor, symbols, s, s);
    RiskMultiplierRange(minimum, factorPct, factorPct, |contributions| == factors);
    return Overlay(basePct, factor.first(s), factorPct, Blend(weight, basePct, factorPct),
                   |contributions| as real / factors as real, contributions,
                   RiskMultiplier(minimum, factorPct, |contributions| == factors),
                   baseRank, factorRank, combinedRank, baseRank - combinedRank);
  }

  /** A key selected twice, in both directions: one contribution, by the second, and half coverage. */
  lemma RepeatedKeyHalvesCoverage(percentile: real)
    ensures var raw, zscores := [Factor("momentum", false), Factor("momentum", true)], map["momentum" := map[1 := 2.0]];
            && Selected(raw) == raw && ContributionsOf(raw, zscores, 1) == [("momentum", -2.0)]
            && RiskMultiplier(0.5, percentile, |ContributionsOf(raw, zscores, 1)| == |Selected(raw)|) == 0.5
  {
    var first, second := Factor("momentum", false), Factor("momentum", true);
    var raw, zscores := [first, second], map["momentum" := map[1 := 2.0]];
    assert raw[..1] == [first] && [first][..0] == [];
    assert Selected([first]) == [] + [first] && Selected(raw) == [first] + [second];
    assert ContributionsOf([first], zscores, 1) == [("momentum", 2.0)];
    assert [("momentum", 2.0)][1..] == [];
  }

  /** Some selected factor has no scores at all. */
  predicate SomeInvalid(raw: seq<Factor>, zscores: map<string, map<int, real>>) {
    exists i :: 0 <= i < |raw| && raw[i].Factor? && ScoresOf(zscores, raw[i].key) == map[]
  }

  lemma NothingContributed(zscores: map<string, map<int, real>>)
    ensures !SomeInvalid([], zscores) && Selected([]) == [] && forall s :: ContributionsOf([], zscores, s) == []
  {
  }

  lemma InvalidGrows(front: seq<Factor>, f: Factor, zscores: map<string, map<int, real>>)
    ensures SomeInvalid(front + [f], zscores) <==>
            SomeInvalid(front, zscores) || (f.Factor? && ScoresOf(zscores, f.key) == map[])
  {
    hide ScoresOf;
    var more := front + [f];
    assert more[|front|] == f;
    if SomeInvalid(front, zscores) {
      var k :| 0 <= k < |front| && front[k].Factor? && ScoresOf(zscores, front[k].key) == map[];
      assert more[k] == front[k];
    }
  }

  lemma InvalidWhole(raw: seq<Factor>, i: nat, zscores: map<string, map<int, real>>)
    requires i <= |raw| && SomeInvalid(raw[..i], zscores)
    ensures SomeInvalid(raw, zscores)
  {
    hide ScoresOf;
    var k :| 0 <= k < i && raw[..i][k].Factor? && ScoresOf(zscores, raw[..i][k].key) == map[];
    assert raw[k] == raw[..i][k];
  }

  lemma OneMoreFactor(raw: seq<Factor>, zscores: map<string, map<int, real>>, i: nat)
    requires i < |raw|
    ensures var front, more, f := raw[..i], raw[..i + 1], raw[i];
            && (SomeInvalid(more, zscores) <==> SomeInvalid(front, zscores) || (f.Factor? && ScoresOf(zscores, f.key) == map[]))
            && (SomeInvalid(more, zscores) ==> SomeInvalid(raw, zscores))
            && Selected(more) == (if f.Factor? then Selected(front) + [f] else Selected(front))
            && forall s :: ContributionsOf(more, zscores, s) ==
                           if f.Factor? && s in ScoresOf(zscores, f.key)
                           then Put(ContributionsOf(front, zscores, s), f.key, Oriented(f, ScoresOf(zscores, f.key)[s]))
                           else ContributionsOf(front, zscores, s)
  {
    hide ScoresOf, Put, Oriented, SomeInvalid;
    var front, more := raw[..i], raw[..i + 1];
    assert more == front + [raw[i]] && more[..i] == front;
    InvalidGrows(front, raw[i], zscores);
    if SomeInvalid(more, zscores) {
      InvalidWhole(raw, i + 1, zscores);
    }
  }

  /** Give every symbol the contributions of the factors, one factor after the other. */
  method Contribute(symbols: seq<int>, raw: seq<Factor>, zscores: map<string, map<int, real>>)
    returns (r: Result<(map<int, Contributions>, seq<Factor>), PolicyError>)
    ensures r == Err(InvalidCrossSection) <==> SomeInvalid(raw, zscores)
    ensures r == Err(NoValidFactors) <==> !SomeInvalid(raw, zscores) && Selected(raw) == []
    ensures r.Err? ==> r.error == InvalidCrossSection || r.error == NoValidFactors
    ensures r.Ok? ==>
              && r.value.1 == Selected(raw)
              && (forall s :: s in r.value.0 <==> s in symbols)
              && forall s :: s in symbols ==> r.value.0[s] == ContributionsOf(raw, zscores, s)
  {
    hide Put, Oriented, Selected, ContributionsOf, SomeInvalid, ScoresOf;
    NothingContributed(zscores);
    var contributions: map<int, Contributions> := map s | s in symbols :: [];
    var selected: seq<Factor> := [];
    for i := 0 to |raw|
      invariant !SomeInvalid(raw[..i], zscores)
      invariant selected == Selected(raw[..i])
      invariant forall s :: s in contributions <==> s in symbols
      invariant forall s :: s in symbols ==> contributions[s] == ContributionsOf(raw[..i], zscores, s)
    {
      OneMoreFactor(raw, zscores, i);
      if raw[i].Factor? {
        selected := selected + [raw[i]];
        var scores := ScoresOf(zscores, raw[i].key);
        if scores == map[] {
          return Err(InvalidCrossSection);
        }
        contributions := map s | s in contributions ::
          if s in scores then Put(contributions[s], raw[i].key, Oriented(raw[i], scores[s])) else contributions[s];
      }
    }
    assert raw[..|raw|] == raw;
    if selected == [] {
      return Err(NoValidFactors);
    }
    return Ok((contributions, selected));
  }

  /** Rank the symbols by baseline, by factor and by both, and write down one overlay each. */
  method Overlays(symbols: seq<int>, base: Scores, byFactor: Scores, weight: real, contributions: map<int, Contributions>,
                  factors: nat, minimum: real)
    returns (overlays: map<int, Overlay>)
    requires Distinct(symbols) && symbols != [] && 0.0 < minimum <= 1.0 && factors > 0
    requires forall s :: s in symbols ==> s in contributions
    ensures forall s :: s in overlays <==> s in symbols
    ensures forall s :: s in symbols ==>
                          IsOverlay(overlays[s], s, symbols, base, byFactor, Combined(base, byFactor, symbols, weight),
                                    contributions[s], factors, minimum)
  {
    hide RankOf, PercentileOf, Distinct, Before, Combined, IsOverlay;
    var baselineResult := DeterministicPercentiles(base, symbols);
    var factorResult := DeterministicPercentiles(byFactor, symbols);
    var combinedRanks := Ranks(Combined(base, byFactor, symbols, weight), symbols);
    var (basePct, baseRanks) := baselineResult.value;
    var (factorPct, factorRanks) := factorResult.value;
    overlays := map[];
    for i := 0 to |symbols|
      invariant forall s :: s in overlays <==> s in symbols[..i]
      invariant forall s :: s in overlays ==>
                              IsOverlay(overlays[s], s, symbols, base, byFactor, Combined(base, byFactor, symbols, weight),
                                        contributions[s], factors, minimum)
    {
      var s := symbols[i];
      var o := OverlayFor(s, symbols, base, byFactor, weight, contributions[s], factors, minimum,
                          basePct[s], baseRanks[s], factorPct[s], factorRanks[s], combinedRanks[s]);
      overlays := overlays[s := o];
    }
    assert symbols[..|symbols|] == symbols;
  }

  /**
    One overlay per symbol: ranks and percentiles by baseline, by factor and by their blend, and a
    risk multiplier between the minimum and one.  `zscores` are the cross-sectional z-scores by key.
   */
  method BuildFactorOverlays(
    symbols: seq<int>, baseline: map<int, real>, raw: seq<Factor>, researchRun: string,
    zscores: map<string, map<int, real>>, weight: real, minimum: real)
    returns (r: Result<map<int, Overlay>, PolicyError>, ghost factor: Scores)
    requires Distinct(symbols) && 0.0 < minimum <= 1.0
    requires forall s :: s in symbols ==> s in baseline
    requires forall k, s :: k in zscores && s in zscores[k] ==> s in symbols
    ensures r == Err(EmptyCrossSection) <==> symbols == []
    ensures r == Err(NoFactors) <==> symbols != [] && raw == []
    ensures r == Err(NoResearchRun) <==> symbols != [] && raw != [] && researchRun == ""
    ensures symbols != [] && raw != [] && researchRun != "" ==>
              && (r == Err(InvalidCrossSection) <==> SomeInvalid(raw, zscores))
              && (r == Err(NoValidFactors) <==> !SomeInvalid(raw, zscores) && Selected(raw) == [])
              && (r.Ok? <==> !SomeInvalid(raw, zscores) && Selected(raw) != [])
    ensures r.Ok? ==>
              var base, factors := ByValue(Lookup(baseline)), |Selected(raw)|;
              && factors > 0
              && (forall s :: s in r.value <==> s in symbols)
              && (forall s :: s in symbols ==> factor.first(s) == Sum(ContributionsOf(raw, zscores, s)) / factors as real)
              && factor.second == factor.first
              && forall s :: s in symbols ==>
                               IsOverlay(r.value[s], s, symbols, base, factor, Combined(base, factor, symbols, weight),
                                         ContributionsOf(raw, zscores, s), factors, minimum)
  {
    hide Distinct, Combined, IsOverlay, Sum, Selected, ContributionsOf, SomeInvalid;
    factor := ByValue(Lookup(map[]));
    if symbols == [] {
      return Err(EmptyCrossSection), factor;
    }
    if raw == [] {
      return Err(NoFactors), factor;
    }
    if researchRun == "" {
      return Err(NoResearchRun), factor;
    }
    var contributed := Contribute(symbols, raw, zscores);
    if contributed.Err? {
      return Err(contributed.error), factor;
    }
    var (contributions, selected) := contributed.value;
    var factorScores := map s | s in symbols :: Sum(contributions[s]) / |selected| as real;
    factor := ByValue(Lookup(factorScores));
    var overlays := Overlays(symbols, ByValue(Lookup(baseline)), ByValue(Lookup(factorScores)), weight, contributions,
                             |selected|, minimum);
    return Ok(overlays), factor;
  }

  // ----- Drawdown -----

  /** Equity before the first and after every return. */
  function Curve(growth: seq<real>): (c: seq<real>)
    ensures |c| == |growth| + 1
  {
    if growth == [] then [1.0]
    else
      var c := Curve(growth[..|growth| - 1]);
      c + [Worth(c[|c| - 1], 1.0 + growth[|growth| - 1])]
  }

  /** The part of `high` that is lost at `low`. */
  function Loss(high: real, low: real): real
    requires high > 0.0
  {
    (high - low) / high
  }

  predicate Pair(curve: seq<real>, i: int, j: int) {
    0 <= i <= j < |curve| && curve[i] > 0.0
  }

  /** The greatest loss from any point of the curve with money left to any later one. */
  ghost predicate IsMaxDrawdown(curve: seq<real>, d: real) {
    && (exists i, j :: Pair(curve, i, j) && d == Loss(curve[i], curve[j]))
    && (forall i, j :: Pair(curve, i, j) ==> Loss(curve[i], curve[j]) <= d)
  }

  /** What is left of a price after a loss. */
  lemma LeftOver(high: real, low: real)
    requires high > 0.0
    ensures Worth(1.0 - Loss(high, low), high) == low
  {
    var x := Loss(high, low);
    assert x * high == high - low;
  }

  lemma LossOrder(a: real, p: real, low: real)
    requires 0.0 < a <= p && low >= 0.0
    ensures Loss(a, low) <= Loss(p, low) <= 1.0
    ensures low <= a ==> 0.0 <= Loss(a, low)
    ensures Loss(a, a) == 0.0
  {
    var x, y := 1.0 - Loss(a, low), 1.0 - Loss(p, low);
    LeftOver(a, low);
    LeftOver(p, low);
    hide Loss, Worth;
    WorthAdds(0.0, 0.0, a);
    WorthAdds(0.0, 0.0, p);
    WorthUnits(a);
    WorthOrdered(x, 0.0, a);
    WorthOrdered(y, 0.0, p);
    WorthOrdered(1.0, x, a);
    WorthOrdered(x, y, p);
    MorePrice(x, a, p);
  }

  lemma MorePrice(x: real, a: real, p: real)
    requires a <= p
    ensures x >= 0.0 ==> Worth(x, a) <= Worth(x, p)
  {
    if x >= 0.0 {
      MulMono(a, p, x);
    }
  }

  /** The highest point up to `j`. */
  function PeakTo(curve: seq<real>, j: nat): real
    requires j < |curve|
  {
    if j == 0 then curve[0] else Max(PeakTo(curve, j - 1), curve[j])
  }

  lemma {:induction false} PeakIsHighest(curve: seq<real>, j: nat) returns (at: nat)
    requires j < |curve|
    ensures at <= j && curve[at] == PeakTo(curve, j)
    ensures forall i :: 0 <= i <= j ==> curve[i] <= PeakTo(curve, j)
  {
    at := 0;
    if j > 0 {
      at := PeakIsHighest(curve, j - 1);
      if curve[j] >= PeakTo(curve, j - 1) {
        at := j;
      }
    }
  }

  lemma {:induction false} PeakOfLonger(curve: seq<real>, equity: real, j: nat)
    requires j < |curve|
    ensures PeakTo(curve + [equity], j) == PeakTo(curve, j)
  {
    if j > 0 {
      PeakOfLonger(curve, equity, j - 1);
    }
  }

  /** The loss at `j` from the highest point up to it; nothing while there has been no money. */
  function PeakLoss(curve: seq<real>, j: nat): real
    requires j < |curve|
  {
    if PeakTo(curve, j) > 0.0 then Loss(PeakTo(curve, j), curve[j]) else 0.0
  }

  /** The greatest loss from a running peak. */
  ghost predicate IsPeakDrawdown(curve: seq<real>, d: real) {
    && (exists j :: 0 <= j < |curve| && d == PeakLoss(curve, j))
    && (forall j :: 0 <= j < |curve| ==> PeakLoss(curve, j) <= d)
  }

  /** The least point above zero up to `j`, on a curve that starts above zero. */
  function LeastTo(curve: seq<real>, j: nat): (r: real)
    requires j < |curve| && curve[0] > 0.0
    ensures r > 0.0
  {
    if j == 0 then curve[0]
    else if 0.0 < curve[j] < LeastTo(curve, j - 1) then curve[j]
    else LeastTo(curve, j - 1)
  }

  lemma {:induction false} LeastIsLowest(curve: seq<real>, j: nat) returns (at: nat)
    requires j < |curve| && curve[0] > 0.0
    ensures at <= j && curve[at] == LeastTo(curve, j)
    ensures forall i :: 0 <= i <= j && curve[i] > 0.0 ==> LeastTo(curve, j) <= curve[i]
  {
    at := 0;
    if j > 0 {
      at := LeastIsLowest(curve, j - 1);
      if 0.0 < curve[j] < LeastTo(curve, j - 1) {
        at := j;
      }
    }
  }

  /** Below zero it is the other way round: the less there was, the greater the loss. */
  lemma LossBelowZero(a: real, p: real, low: real)
    requires 0.0 < a <= p && low < 0.0
    ensures Loss(p, low) <= Loss(a, low) && 1.0 < Loss(p, low)
  {
    var x, y := Loss(a, low) - 1.0, Loss(p, low) - 1.0;
    LeftOver(a, low);
    LeftOver(p, low);
    WorthNegated(x, a);
    WorthNegated(y, p);
    hide Loss, Worth;
    WorthUnits(p);
    WorthOrdered(y, 0.0, p);
    MorePrice(y, a, p);
    WorthOrdered(x, y, a);
  }

  lemma WorthNegated(x: real, price: real)
    ensures Worth(1.0 - (x + 1.0), price) == -Worth(x, price)
  {
  }

  /** No point below zero is a greater loss from the least point before it than all losses from running peaks. */
  ghost predicate PeaksTell(curve: seq<real>)
    requires curve != [] && curve[0] > 0.0
  {
    forall j :: 0 <= j < |curve| && curve[j] < 0.0 ==>
                  exists k :: 0 <= k < |curve| && PeakLoss(curve, k) >= Loss(LeastTo(curve, j), curve[j])
  }

  /** A point not below zero never loses more from any point than from the running peak. */
  lemma LossWithinPeak(curve: seq<real>, d: real, i: int, j: int)
    requires curve != [] && curve[0] > 0.0 && IsPeakDrawdown(curve, d) && Pair(curve, i, j) && curve[j] >= 0.0
    ensures Loss(curve[i], curve[j]) <= d
  {
    hide Loss;
    var top := PeakIsHighest(curve, j);
    LossOrder(curve[i], curve[top], curve[j]);
    assert PeakLoss(curve, j) <= d;
  }

  /** The greatest loss from a running peak is one of the losses over pairs, and not negative. */
  lemma PeakDrawdownIsPair(curve: seq<real>, d: real)
    requires curve != [] && curve[0] > 0.0 && IsPeakDrawdown(curve, d)
    ensures exists i, j :: Pair(curve, i, j) && d == Loss(curve[i], curve[j])
    ensures d >= 0.0 && ((forall j :: 0 <= j < |curve| ==> curve[j] >= 0.0) ==> d <= 1.0)
  {
    hide Loss;
    var worst :| 0 <= worst < |curve| && d == PeakLoss(curve, worst);
    var at := PeakIsHighest(curve, worst);
    assert Pair(curve, at, worst) && d == Loss(curve[at], curve[worst]);
    LossOrder(curve[0], curve[0], curve[0]);
    assert PeakLoss(curve, 0) == 0.0;
    if curve[worst] >= 0.0 {
      LossOrder(curve[at], curve[at], curve[worst]);
    }
  }

  /**
    The greatest loss from a running peak is the greatest loss over all pairs exactly when every
    point below zero loses no more from the least point before it than some point loses from its
    running peak; so always while equity never goes negative, and then it is no more than everything.
   */
  lemma PeakDrawdownIsMax(curve: seq<real>, d: real)
    requires curve != [] && curve[0] > 0.0 && IsPeakDrawdown(curve, d)
    ensures IsMaxDrawdown(curve, d) <==> PeaksTell(curve)
    ensures (forall j :: 0 <= j < |curve| ==> curve[j] >= 0.0) ==> PeaksTell(curve) && 0.0 <= d <= 1.0
  {
    hide Loss;
    PeakDrawdownIsPair(curve, d);
    var worst :| 0 <= worst < |curve| && d == PeakLoss(curve, worst);
    if PeaksTell(curve) {
      forall i, j | Pair(curve, i, j)
        ensures Loss(curve[i], curve[j]) <= d
      {
        if curve[j] >= 0.0 {
          LossWithinPeak(curve, d, i, j);
        } else {
          var least := LeastIsLowest(curve, j);
          LossBelowZero(curve[least], curve[i], curve[j]);
        }
      }
    }
    if IsMaxDrawdown(curve, d) {
      forall j | 0 <= j < |curve| && curve[j] < 0.0
        ensures PeakLoss(curve, worst) >= Loss(LeastTo(curve, j), curve[j])
      {
        var least := LeastIsLowest(curve, j);
        assert Pair(curve, least, j);
      }
    }
  }

  lemma PeakLossOfLonger(curve: seq<real>, equity: real, j: nat)
    requires j < |curve|
    ensures PeakLoss(curve + [equity], j) == PeakLoss(curve, j)
  {
    PeakOfLonger(curve, equity, j);
    assert (curve + [equity])[j] == curve[j];
  }

  lemma PeakLossAtEnd(curve: seq<real>, equity: real)
    requires curve != [] && PeakTo(curve, |curve| - 1) > 0.0
    ensures var peak := Max(PeakTo(curve, |curve| - 1), equity);
            PeakTo(curve + [equity], |curve|) == peak > 0.0 && PeakLoss(curve + [equity], |curve|) == Loss(peak, equity)
  {
    hide Loss;
    PeakOfLonger(curve, equity, |curve| - 1);
  }

  lemma PeakDrawdownGrows(curve: seq<real>, d: real, equity: real)
    requires curve != [] && PeakTo(curve, |curve| - 1) > 0.0 && IsPeakDrawdown(curve, d)
    ensures var peak := Max(PeakTo(curve, |curve| - 1), equity);
            && PeakTo(curve + [equity], |curve|) == peak > 0.0
            && IsPeakDrawdown(curve + [equity], Max(d, Loss(peak, equity)))
  {
    hide Loss, PeakTo, PeakLoss;
    var more := curve + [equity];
    PeakLossAtEnd(curve, equity);
    forall j | 0 <= j < |curve|
      ensures PeakLoss(more, j) == PeakLoss(curve, j)
    {
      PeakLossOfLonger(curve, equity, j);
    }
    var worst :| 0 <= worst < |curve| && d == PeakLoss(curve, worst);
    assert PeakLoss(more, worst) == d;
  }

  lemma PeakDrawdownStart()
    ensures PeakTo([1.0], 0) == 1.0 && IsPeakDrawdown([1.0], 0.0)
  {
    LossOrder(1.0, 1.0, 1.0);
    assert PeakLoss([1.0], 0) == 0.0;
  }

  lemma {:induction false} CurveStartsWithOne(growth: seq<real>)
    ensures Curve(growth)[0] == 1.0
    ensures (forall i :: 0 <= i < |growth| ==> growth[i] >= -1.0) ==>
              forall j :: 0 <= j <= |growth| ==> Curve(growth)[j] >= 0.0
  {
    if growth != [] {
      var front, last := growth[..|growth| - 1], growth[|growth| - 1];
      CurveStartsWithOne(front);
      if last >= -1.0 && Curve(front)[|front|] >= 0.0 {
        WorthNotNegative(Curve(front)[|front|], 1.0 + last);
      }
      hide Worth;
    }
  }

  /**
    The running-peak loop finds the greatest loss from a running peak, whatever the returns.  For
    returns that lose no more than everything that is the greatest loss over all pairs of points,
    the start included, and it lies between nothing and everything.
   */
  method EquityMetrics(growth: seq<real>) returns (net: real, drawdown: real)
    ensures net == Curve(growth)[|growth|] - 1.0
    ensures Curve(growth)[0] == 1.0 && IsPeakDrawdown(Curve(growth), drawdown)
    ensures IsMaxDrawdown(Curve(growth), drawdown) <==> PeaksTell(Curve(growth))
    ensures (forall i :: 0 <= i < |growth| ==> growth[i] >= -1.0) ==>
              IsMaxDrawdown(Curve(growth), drawdown) && 0.0 <= drawdown <= 1.0
  {
    var equity, peak := 1.0, 1.0;
    drawdown := 0.0;
    PeakDrawdownStart();
    hide Worth, Loss, IsMaxDrawdown, IsPeakDrawdown, PeakTo;
    for i := 0 to |growth|
      invariant Curve(growth[..i])[0] == 1.0
      invariant equity == Curve(growth[..i])[i]
      invariant peak == PeakTo(Curve(growth[..i]), i) > 0.0
      invariant IsPeakDrawdown(Curve(growth[..i]), drawdown)
    {
      assert growth[..i + 1][..i] == growth[..i];
      equity := Worth(equity, 1.0 + growth[i]);
      PeakDrawdownGrows(Curve(growth[..i]), drawdown, equity);
      peak := Max(peak, equity);
      if peak > 0.0 {
        drawdown := Max(drawdown, Loss(peak, equity));
      }
    }
    assert growth[..|growth|] == growth;
    net := equity - 1.0;
    CurveStartsWithOne(growth);
    PeakDrawdownIsMax(Curve(growth), drawdown);
  }

  lemma WorthNotNegative(x: real, y: real)
    requires x >= 0.0 && y >= 0.0
    ensures Worth(x, y) >= 0.0
  {
    MulMono(0.0, x, y);
  }

  /** A return below -1 can break it: the loss from the peak, 1.5, is less than the loss from the start, 2. */
  lemma BelowMinusOneUnderstates()
    ensures var curve := Curve([1.0, -1.5]);
            curve == [1.0, 2.0, -1.0] && IsPeakDrawdown(curve, 1.5) && !IsMaxDrawdown(curve, 1.5)
  {
    assert [1.0, -1.5][..1] == [1.0] && [1.0][..0] == [];
    assert Curve([1.0]) == [1.0, 2.0];
    var curve := Curve([1.0, -1.5]);
    assert PeakTo(curve, 0) == 1.0 && PeakTo(curve, 1) == 2.0 && PeakTo(curve, 2) == 2.0;
    assert PeakLoss(curve, 0) == 0.0 && PeakLoss(curve, 1) == 0.0 && PeakLoss(curve, 2) == 1.5;
    assert Pair(curve, 0, 2) && Loss(curve[0], curve[2]) == 2.0;
  }
}
