/** Solving `b * price(b) == quote` for the base quantity by bisection, and how close the answer is. */
module QuoteSolver {
  import opened Wrappers
  import opened PoolImpact

  const TOLERANCE: real := 0.000000000001
  const TWO_TO_64: real := 18446744073709551616.0

  /** A width halved `n` times. */
  ghost function Halved(width: real, n: nat): real {
    if n == 0 then width else 0.5 * Halved(width, n - 1)
  }

  /** The quoted price stays within its bounds at the two ends of the bracket. */
  ghost predicate Honours(quote: real, floor: real, ceil: real, price: real -> real)
    requires floor > 0.0 && ceil > 0.0
  {
    price(quote / ceil) <= ceil && price(quote / floor) >= floor
  }

  /** What a base quantity pays. */
  function Pays(price: real -> real, b: real): real {
    b * price(b)
  }

  ghost predicate Brackets(quote: real, price: real -> real, low: real, high: real) {
    0.0 < low <= high && Pays(price, low) <= quote <= Pays(price, high)
  }

  predicate Solvable(quote: real, floor: real, ceil: real) {
    quote > 0.0 && floor > 0.0 && ceil >= floor
  }

  method SolveBaseForQuote(quote: real, floor: real, ceil: real, price: real -> real)
    returns (base: Option<real>, ghost low: real, ghost high: real)
    ensures base.Some? <==> quote > 0.0 && 0.0 < floor <= ceil
    ensures base.Some? ==> 0.0 < low <= high && base.value == 0.5 * (low + high)
    ensures base.Some? ==> high - low <= Width(quote, floor, ceil, high)
    ensures base.Some? ==> quote / ceil <= low && high <= quote / floor
    ensures base.Some? && Honours(quote, floor, ceil, price) ==> Brackets(quote, price, low, high)
  {
    if quote <= 0.0 || floor <= 0.0 || ceil < floor {
      return None, 0.0, 0.0;
    }
    var lo := quote / ceil;
    var hi := quote / floor;
    BracketEnds(quote, floor, ceil, price(lo), price(hi));
    assert Honours(quote, floor, ceil, price) ==> Brackets(quote, price, lo, hi);
    hide Brackets, Pays, Honours;
    ghost var first, last := lo, hi;
    ghost var width := last - first;
    ghost var honoured := Honours(quote, floor, ceil, price);
    var i := 0;
    while i < 64 && hi - lo > TOLERANCE * hi
      invariant 0 <= i <= 64 && 0.0 < first <= lo <= hi <= last
      invariant hi - lo == Halved(width, i)
      invariant honoured ==> Brackets(quote, price, lo, hi)
      decreases 64 - i
    {
      var mid := 0.5 * (lo + hi);
      var h := Pays(price, mid) - quote;
      if honoured {
        HalfBrackets(quote, price, lo, hi);
      }
      if h > 0.0 {
        hi := mid;
      } else {
        lo := mid;
      }
      i := i + 1;
    }
    HalvedOften(width);
    base, low, high := Some(0.5 * (lo + hi)), lo, hi;
  }

  lemma HalfBrackets(quote: real, price: real -> real, low: real, high: real)
    requires Brackets(quote, price, low, high)
    ensures var mid := 0.5 * (low + high);
            if Pays(price, mid) > quote then Brackets(quote, price, low, mid) else Brackets(quote, price, mid, high)
  {
  }

  lemma BracketEnds(quote: real, floor: real, ceil: real, atLow: real, atHigh: real)
    requires Solvable(quote, floor, ceil)
    ensures 0.0 < quote / ceil <= quote / floor
    ensures atLow <= ceil ==> quote / ceil * atLow <= quote
    ensures atHigh >= floor ==> quote / floor * atHigh >= quote
  {
    var lo, hi := quote / ceil, quote / floor;
    assert lo * ceil == quote && hi * floor == quote;
    PositiveFactor(lo, ceil);
    PositiveFactor(hi, floor);
    ProductOrder(floor, ceil, hi);
    ProductOrder(hi, lo, ceil);
    ProductOrder(atLow, ceil, lo);
    ProductOrder(floor, atHigh, hi);
  }

  lemma PositiveFactor(a: real, b: real)
    requires b > 0.0 && a * b > 0.0
    ensures a > 0.0
  {
  }

  lemma {:induction false} HalvesCompose(width: real, a: nat, b: nat)
    ensures Halved(width, a + b) == Halved(Halved(width, a), b)
  {
    if b > 0 {
      HalvesCompose(width, a, b - 1);
    }
  }

  lemma HalvedEight(width: real)
    ensures Halved(width, 8) == width / 256.0
  {
    assert Halved(width, 1) == width / 2.0;
    assert Halved(width, 2) == width / 4.0;
    assert Halved(width, 4) == width / 16.0;
    assert Halved(width, 6) == width / 64.0;
  }

  lemma HalvedOften(width: real)
    ensures Halved(width, 64) == width / TWO_TO_64
  {
    HalvedEight(width);
    HalvedEight(Halved(width, 8));
    HalvedEight(Halved(width, 16));
    HalvedEight(Halved(width, 24));
    HalvedEight(Halved(width, 32));
    HalvedEight(Halved(width, 40));
    HalvedEight(Halved(width, 48));
    HalvedEight(Halved(width, 56));
    hide Halved;
    HalvesCompose(width, 8, 8);
    HalvesCompose(width, 16, 8);
    HalvesCompose(width, 24, 8);
    HalvesCompose(width, 32, 8);
    HalvesCompose(width, 40, 8);
    HalvesCompose(width, 48, 8);
    HalvesCompose(width, 56, 8);
  }

  // How close the answer is

  ghost predicate StrictlyIncreasing(price: real -> real) {
    forall a, b :: 0.0 < a < b ==> Pays(price, a) < Pays(price, b)
  }

  /** The final bracket is this narrow: relatively, or after all 64 halvings. */
  ghost function Width(quote: real, floor: real, ceil: real, high: real): real
    requires floor > 0.0 && ceil > 0.0
  {
    Max(TOLERANCE * high, (quote / floor - quote / ceil) / TWO_TO_64)
  }

  /** Below `base` by more than the tolerance a quantity pays less than the quote, above it by more it pays more. */
  ghost predicate Separates(quote: real, price: real -> real, base: real, tolerance: real) {
    && (forall b :: 0.0 < b < base - tolerance ==> Pays(price, b) < quote)
    && (forall b :: b > 0.0 && b > base + tolerance ==> Pays(price, b) > quote)
  }

  lemma OutsideBracket(quote: real, price: real -> real, low: real, high: real, b: real)
    requires Brackets(quote, price, low, high) && StrictlyIncreasing(price) && b > 0.0
    ensures b < low ==> Pays(price, b) < quote
    ensures b > high ==> Pays(price, b) > quote
  {
    hide Pays;
    assert b < low ==> Pays(price, b) < Pays(price, low);
    assert b > high ==> Pays(price, high) < Pays(price, b);
  }

  lemma OneRoot(quote: real, price: real -> real, a: real, b: real)
    requires StrictlyIncreasing(price) && a > 0.0 && b > 0.0 && Pays(price, a) == quote && Pays(price, b) == quote
    ensures a == b
  {
    hide Pays;
  }

  /**
   Whatever bracket the bisection ends with, its midpoint is where the quote is crossed, to within half the
   bracket's width; so it is that close to the root, and there is at most one.
   */
  lemma AnswerNearRoot(quote: real, price: real -> real, low: real, high: real, width: real)
    requires Brackets(quote, price, low, high) && StrictlyIncreasing(price) && high - low <= width
    ensures Separates(quote, price, 0.5 * (low + high), 0.5 * width)
    ensures forall root :: root > 0.0 && Pays(price, root) == quote ==> low <= root <= high && Abs(0.5 * (low + high) - root) <= 0.5 * width
    ensures forall a, b :: a > 0.0 && b > 0.0 && Pays(price, a) == quote && Pays(price, b) == quote ==> a == b
  {
    assert low > 0.0;
    hide Brackets, StrictlyIncreasing, Pays;
    forall b | b > 0.0 ensures (b < low ==> Pays(price, b) < quote) && (b > high ==> Pays(price, b) > quote) {
      OutsideBracket(quote, price, low, high, b);
    }
    forall a, b | a > 0.0 && b > 0.0 && Pays(price, a) == quote && Pays(price, b) == quote ensures a == b {
      OneRoot(quote, price, a, b);
    }
  }

  // The charge on a purchase keeps the quote increasing

  /** What a buyer pays per unit: the mid raised by the spread and the impact, in percent. */
  function ImpactPrice(mid: real, spread: real, net: real, k: Knobs): real -> real {
    (b: real) => mid * (1.0 + (spread + MarginalImpact(UserBuys, b, net, k)) / 100.0)
  }

  function SpreadPrice(mid: real, spread: real): real {
    mid * (1.0 + spread / 100.0)
  }

  /** The price at the capped impact, the solver's upper bound. */
  function CapPrice(mid: real, spread: real, k: Knobs): real {
    Max(SpreadPrice(mid, spread + Cap(k)), mid * 0.000000001)
  }

  ghost function Charge(b: real, net: real, k: Knobs): real {
    MarginalImpact(UserBuys, b, net, k) * b
  }

  lemma BuyersCharge(b: real, net: real, k: Knobs)
    requires k.reserve > 0.0 && b > 0.0
    ensures Charge(b, net, k) ==
              Min(Cap(k) * b, Multiplier(k) * (CostAt(UserBuys, NetAfter(UserBuys, net, b), k) - CostAt(UserBuys, net, k)))
  {
    ChargeIsSmaller(UserBuys, b, net, k);
    hide CostAt, MarginalImpact, Cap, Multiplier;
  }

  lemma ChargeGrows(a: real, b: real, net: real, k: Knobs)
    requires k.reserve > 0.0 && 0.0 < a < b
    ensures 0.0 <= Charge(a, net, k) <= Charge(b, net, k)
  {
    hide CostAt, Charge;
    BuyersCharge(a, net, k);
    BuyersCharge(b, net, k);
    CostRises(UserBuys, a, net, k);
    CostRises(UserBuys, b - a, net + a, k);
    assert NetAfter(UserBuys, net + a, b - a) == net + b;
    ProductGrows(a, b, Cap(k), Cap(k));
    var from := CostAt(UserBuys, net, k);
    ProductGrows(CostAt(UserBuys, net + a, k) - from, CostAt(UserBuys, net + b, k) - from, Multiplier(k), Multiplier(k));
  }

  /** What `b` pays at the spread price, and the charge on it. */
  ghost function WithCharge(price: real, b: real, mid: real, percent: real): real {
    price * b + mid * (percent / 100.0)
  }

  lemma QuotedTotal(mid: real, spread: real, b: real, net: real, k: Knobs)
    ensures Pays(ImpactPrice(mid, spread, net, k), b) == WithCharge(SpreadPrice(mid, spread), b, mid, Charge(b, net, k))
  {
    hide MarginalImpact;
    TotalAtRate(mid, spread, b, MarginalImpact(UserBuys, b, net, k));
  }

  lemma TotalAtRate(mid: real, spread: real, b: real, rate: real)
    ensures b * (mid * (1.0 + (spread + rate) / 100.0)) == mid * (1.0 + spread / 100.0) * b + mid * (rate * b / 100.0)
  {
    var base := 1.0 + spread / 100.0;
    assert 1.0 + (spread + rate) / 100.0 == base + rate / 100.0;
    assert mid * (base + rate / 100.0) == mid * base + mid * (rate / 100.0);
    assert b * (mid * base + mid * (rate / 100.0)) == mid * base * b + mid * (rate * b / 100.0);
  }

  lemma SpreadPriceGrows(mid: real, a: real, b: real)
    requires mid > 0.0 && a <= b
    ensures SpreadPrice(mid, a) <= SpreadPrice(mid, b)
  {
    ProductOrder(1.0 + a / 100.0, 1.0 + b / 100.0, mid);
  }

  lemma SpreadPricePositive(mid: real, spread: real)
    requires mid > 0.0 && spread > -100.0
    ensures SpreadPrice(mid, spread) > 0.0
  {
  }

  /** With the capped purchase charge, the quote strictly grows with the base quantity and stays within the solver's bounds. */
  lemma ImpactPriceIsSolvable(mid: real, spread: real, net: real, k: Knobs, quote: real)
    requires mid > 0.0 && spread > -100.0 && quote > 0.0 && k.reserve > 0.0
    ensures StrictlyIncreasing(ImpactPrice(mid, spread, net, k))
    ensures var floor, ceil := SpreadPrice(mid, spread), CapPrice(mid, spread, k);
            Solvable(quote, floor, ceil) && Honours(quote, floor, ceil, ImpactPrice(mid, spread, net, k))
  {
    SpreadPricePositive(mid, spread);
    SpreadPriceGrows(mid, spread, spread + Cap(k));
    hide MarginalImpact, ImpactPrice, Cap, SpreadPrice, Pays;
    forall a, b | 0.0 < a < b
      ensures Pays(ImpactPrice(mid, spread, net, k), a) < Pays(ImpactPrice(mid, spread, net, k), b)
    {
      QuotedTotalGrows(mid, spread, a, b, net, k);
    }
    ImpactPriceBounded(mid, spread, quote / CapPrice(mid, spread, k), net, k);
    ImpactPriceBounded(mid, spread, quote / SpreadPrice(mid, spread), net, k);
  }

  lemma QuotedTotalGrows(mid: real, spread: real, a: real, b: real, net: real, k: Knobs)
    requires mid > 0.0 && spread > -100.0 && k.reserve > 0.0 && 0.0 < a < b
    ensures Pays(ImpactPrice(mid, spread, net, k), a) < Pays(ImpactPrice(mid, spread, net, k), b)
  {
    SpreadPricePositive(mid, spread);
    hide *;
    ChargeGrows(a, b, net, k);
    QuotedTotal(mid, spread, a, net, k);
    QuotedTotal(mid, spread, b, net, k);
    SumGrows(SpreadPrice(mid, spread), a, b, mid, Charge(a, net, k), Charge(b, net, k));
  }

  lemma SumGrows(f: real, a: real, b: real, m: real, u: real, v: real)
    requires f > 0.0 && a < b && m > 0.0 && u <= v
    ensures WithCharge(f, a, m, u) < WithCharge(f, b, m, v)
  {
    ProductOrder(a, b, f);
    ProductOrder(u / 100.0, v / 100.0, m);
  }

  lemma ImpactWithinCap(b: real, net: real, k: Knobs)
    ensures 0.0 <= MarginalImpact(UserBuys, b, net, k) <= Cap(k)
  {
    hide Growth, Multiplier, Cap;
  }

  lemma ImpactPriceBounded(mid: real, spread: real, b: real, net: real, k: Knobs)
    requires mid > 0.0
    ensures SpreadPrice(mid, spread) <= ImpactPrice(mid, spread, net, k)(b) <= CapPrice(mid, spread, k)
  {
    var i := MarginalImpact(UserBuys, b, net, k);
    ImpactWithinCap(b, net, k);
    hide MarginalImpact, Cap;
    assert ImpactPrice(mid, spread, net, k)(b) == SpreadPrice(mid, spread + i);
    hide SpreadPrice, ImpactPrice;
    SpreadPriceGrows(mid, spread, spread + i);
    SpreadPriceGrows(mid, spread + i, spread + Cap(k));
  }

  /**
   A quote priced for a buyer with its own spread and charge: the answer is where that price crosses the quote,
   within a tolerance fixed by the quote and the price without impact.
   */
  method SolveAtImpact(quote: real, mid: real, spread: real, net: real, k: Knobs) returns (base: Option<real>, ghost tolerance: real)
    requires mid > 0.0 && spread > -100.0 && k.reserve > 0.0
    ensures base.Some? <==> quote > 0.0
    ensures base.Some? ==> Separates(quote, ImpactPrice(mid, spread, net, k), base.value, tolerance)
    ensures base.Some? ==> var most := quote / SpreadPrice(mid, spread); tolerance <= 0.5 * Max(0.000000000001 * most, most / 18446744073709551616.0)
  {
    SpreadPricePositive(mid, spread);
    SpreadPriceGrows(mid, spread, spread + Cap(k));
    var floor, ceil := SpreadPrice(mid, spread), CapPrice(mid, spread, k);
    hide Separates, Honours, Brackets, StrictlyIncreasing, ImpactPrice, MarginalImpact, SpreadPrice, Cap;
    ghost var low, high;
    base, low, high := SolveBaseForQuote(quote, floor, ceil, ImpactPrice(mid, spread, net, k));
    tolerance := 0.0;
    if base.Some? {
      ImpactPriceIsSolvable(mid, spread, net, k, quote);
      AnswerNearRoot(quote, ImpactPrice(mid, spread, net, k), low, high, Width(quote, floor, ceil, high));
      tolerance := 0.5 * Width(quote, floor, ceil, high);
      BracketEnds(quote, floor, ceil, 0.0, 0.0);
      WidthBounded(quote / floor, quote / ceil, high);
    }
  }

  lemma WidthBounded(top: real, bottom: real, high: real)
    requires 0.0 < bottom && high <= top
    ensures Max(TOLERANCE * high, (top - bottom) / TWO_TO_64) <= Max(TOLERANCE * top, top / TWO_TO_64)
  {
  }
}
