/** The size-aware charge on a trade: the growth of a total cost along the counterparty's trailing net. */
module PoolImpact {
  import opened Wrappers

  /** Which side the user is on. */
  datatype ImpactSide = UserBuys | UserSells

  datatype Knobs = Knobs(reserve: real, freeZone: real, maxFraction: real, multiplier: real, cap: real)

  function Clamp(x: real, low: real, high: real): real {
    if x < low then low else if x > high then high else x
  }

  function Fraction(k: Knobs): real {
    Clamp(k.maxFraction, 0.0, 0.99)
  }

  function Multiplier(k: Knobs): (m: real)
    ensures m >= 0.0
  {
    Max(k.multiplier, 0.0)
  }

  function Cap(k: Knobs): (c: real)
    ensures c >= 0.0
  {
    Max(k.cap, 0.0)
  }

  function NetAfter(side: ImpactSide, net: real, quantity: real): real {
    if side.UserBuys? then net + quantity else net - quantity
  }

  /** The charged position: how far the net is past the free zone, on the side being traded. */
  function Position(side: ImpactSide, net: real, k: Knobs): real {
    Max((if side.UserBuys? then net else -net) - Max(k.freeZone, 0.0), 0.0)
  }

  function PoolShare(x: real, k: Knobs): real
    requires k.reserve > 0.0
  {
    Clamp(x / k.reserve, 0.0, Fraction(k))
  }

  /** The pool's average markup, percent, for moving a share `u` through it. */
  function MarkupAt(side: ImpactSide, u: real): real
    requires 0.0 <= u <= 0.99
  {
    if side.UserBuys? then 100.0 * u / (1.0 - u) else 100.0 * u / (1.0 + u)
  }

  function Markup(side: ImpactSide, x: real, k: Knobs): real
    requires k.reserve > 0.0
  {
    MarkupAt(side, PoolShare(x, k))
  }

  /** Total cost of reaching position `x`. */
  function Cost(side: ImpactSide, x: real, k: Knobs): real
    requires k.reserve > 0.0
  {
    x * Markup(side, x, k)
  }

  function CostAt(side: ImpactSide, net: real, k: Knobs): real
    requires k.reserve > 0.0
  {
    Cost(side, Position(side, net, k), k)
  }

  /** Cost growth over a trade, spread over its quantity, percent. */
  function Growth(side: ImpactSide, quantity: real, net: real, k: Knobs): real
    requires k.reserve > 0.0 && quantity > 0.0
  {
    (CostAt(side, NetAfter(side, net, quantity), k) - CostAt(side, net, k)) / quantity
  }

  function MarginalImpact(side: ImpactSide, quantity: real, net: real, k: Knobs): real {
    if k.reserve <= 0.0 || quantity <= 0.0 then 0.0
    else Rate(Growth(side, quantity, net, k), Multiplier(k), Cap(k))
  }

  function Rate(growth: real, multiplier: real, cap: real): real {
    Clamp(Max(growth, 0.0) * multiplier, 0.0, cap)
  }

  // The cost grows with the position

  lemma QuotientOrder(a: real, b: real, c: real, d: real)
    requires b > 0.0 && d > 0.0 && a * d <= c * b
    ensures a / b <= c / d
  {
    var x, y := a / b, c / d;
    assert x * b == a && y * d == c;
    assert x * (b * d) == a * d && y * (b * d) == c * b;
    ProductOrder(x, y, b * d);
  }

  lemma ProductOrder(a: real, b: real, f: real)
    requires f > 0.0
    ensures a <= b <==> a * f <= b * f
    ensures a < b <==> a * f < b * f
  {
  }

  lemma MarkupGrows(side: ImpactSide, u: real, v: real)
    requires 0.0 <= u <= v <= 0.99
    ensures 0.0 <= MarkupAt(side, u) <= MarkupAt(side, v)
    ensures MarkupAt(side, 0.0) == 0.0
  {
    if side.UserBuys? {
      QuotientOrder(0.0, 1.0, 100.0 * u, 1.0 - u);
      QuotientOrder(100.0 * u, 1.0 - u, 100.0 * v, 1.0 - v);
    } else {
      QuotientOrder(0.0, 1.0, 100.0 * u, 1.0 + u);
      QuotientOrder(100.0 * u, 1.0 + u, 100.0 * v, 1.0 + v);
    }
  }

  lemma ShareGrows(x: real, y: real, k: Knobs)
    requires k.reserve > 0.0 && 0.0 <= x <= y
    ensures 0.0 <= PoolShare(x, k) <= PoolShare(y, k) <= 0.99
    ensures PoolShare(0.0, k) == 0.0
  {
    QuotientOrder(0.0, 1.0, x, k.reserve);
    QuotientOrder(x, k.reserve, y, k.reserve);
  }

  lemma CostGrows(side: ImpactSide, x: real, y: real, k: Knobs)
    requires k.reserve > 0.0 && 0.0 <= x <= y
    ensures 0.0 <= Cost(side, x, k) <= Cost(side, y, k)
    ensures Cost(side, 0.0, k) == 0.0
  {
    hide PoolShare, MarkupAt;
    ShareGrows(x, y, k);
    MarkupGrows(side, PoolShare(x, k), PoolShare(y, k));
    ProductGrows(x, y, Markup(side, x, k), Markup(side, y, k));
  }

  lemma ProductGrows(x: real, y: real, f: real, g: real)
    requires 0.0 <= x <= y && 0.0 <= f <= g
    ensures 0.0 <= x * f <= y * g
  {
    assert x * f <= x * g;
    assert (y - x) * g >= 0.0;
  }

  lemma PositionGrows(side: ImpactSide, net: real, quantity: real, k: Knobs)
    requires quantity >= 0.0
    ensures 0.0 <= Position(side, net, k) <= Position(side, NetAfter(side, net, quantity), k)
  {
  }

  // Splitting a total

  lemma CostRises(side: ImpactSide, quantity: real, net: real, k: Knobs)
    requires k.reserve > 0.0 && quantity >= 0.0
    ensures 0.0 <= CostAt(side, net, k) <= CostAt(side, NetAfter(side, net, quantity), k)
  {
    PositionGrows(side, net, quantity, k);
    CostGrows(side, Position(side, net, k), Position(side, NetAfter(side, net, quantity), k), k);
  }

  ghost predicate Uncapped(side: ImpactSide, quantity: real, net: real, k: Knobs)
    requires k.reserve > 0.0 && quantity > 0.0
  {
    Growth(side, quantity, net, k) * Multiplier(k) <= Cap(k)
  }

  /** One part is charged its cost growth, or less where the cap bites. */
  lemma PartCharge(side: ImpactSide, quantity: real, net: real, k: Knobs)
    requires k.reserve > 0.0 && quantity > 0.0
    ensures var charge := MarginalImpact(side, quantity, net, k) * quantity;
            var growth := Multiplier(k) * (CostAt(side, NetAfter(side, net, quantity), k) - CostAt(side, net, k));
            charge <= growth && (charge == growth <==> Uncapped(side, quantity, net, k))
  {
    hide CostAt, Growth, Rate, Multiplier, Cap;
    GrowthSpreads(side, quantity, net, k);
    ChargeOf(Growth(side, quantity, net, k), Multiplier(k), Cap(k), quantity,
             CostAt(side, NetAfter(side, net, quantity), k) - CostAt(side, net, k));
  }

  lemma GrowthSpreads(side: ImpactSide, quantity: real, net: real, k: Knobs)
    requires k.reserve > 0.0 && quantity > 0.0
    ensures var rise := CostAt(side, NetAfter(side, net, quantity), k) - CostAt(side, net, k);
            rise >= 0.0 && Growth(side, quantity, net, k) >= 0.0 && Growth(side, quantity, net, k) * quantity == rise
  {
    hide CostAt;
    CostRises(side, quantity, net, k);
    GrowthOf(CostAt(side, NetAfter(side, net, quantity), k) - CostAt(side, net, k), quantity);
  }

  lemma GrowthOf(rise: real, quantity: real)
    requires rise >= 0.0 && quantity > 0.0
    ensures rise / quantity >= 0.0 && rise / quantity * quantity == rise
  {
  }

  lemma ChargeOf(per: real, multiplier: real, cap: real, quantity: real, rise: real)
    requires per >= 0.0 && multiplier >= 0.0 && cap >= 0.0 && quantity > 0.0 && per * quantity == rise
    ensures var rate := Rate(per, multiplier, cap);
            && rate * quantity <= multiplier * rise
            && (rate * quantity == multiplier * rise <==> per * multiplier <= cap)
  {
    assert per * multiplier >= 0.0;
    assert per * multiplier * quantity == multiplier * rise;
    ProductOrder(cap, per * multiplier, quantity);
  }

  /** A trade is charged its cost growth times the multiplier, or the cap where that is less. */
  lemma ChargeIsSmaller(side: ImpactSide, quantity: real, net: real, k: Knobs)
    requires k.reserve > 0.0 && quantity > 0.0
    ensures MarginalImpact(side, quantity, net, k) * quantity ==
              Min(Cap(k) * quantity, Multiplier(k) * (CostAt(side, NetAfter(side, net, quantity), k) - CostAt(side, net, k)))
  {
    hide CostAt, Growth, Rate, Multiplier, Cap;
    GrowthSpreads(side, quantity, net, k);
    var rise := CostAt(side, NetAfter(side, net, quantity), k) - CostAt(side, net, k);
    SmallerCharge(Growth(side, quantity, net, k), Multiplier(k), Cap(k), quantity, rise);
  }

  lemma SmallerCharge(per: real, multiplier: real, cap: real, quantity: real, rise: real)
    requires per >= 0.0 && multiplier >= 0.0 && cap >= 0.0 && quantity > 0.0 && per * quantity == rise
    ensures Rate(per, multiplier, cap) * quantity == Min(cap * quantity, multiplier * rise)
  {
    assert per * multiplier >= 0.0;
    assert per * multiplier * quantity == multiplier * rise;
    ProductOrder(cap, per * multiplier, quantity);
  }

  function NetAfterAll(side: ImpactSide, net: real, parts: seq<real>): real
    decreases |parts|
  {
    if parts == [] then net else NetAfterAll(side, NetAfter(side, net, parts[0]), parts[1..])
  }

  /** What a total pays when traded part by part, the net updated in between. */
  function Charged(side: ImpactSide, net: real, parts: seq<real>, k: Knobs): real
    decreases |parts|
  {
    if parts == [] then 0.0
    else MarginalImpact(side, parts[0], net, k) * parts[0] + Charged(side, NetAfter(side, net, parts[0]), parts[1..], k)
  }

  ghost predicate AllPositive(parts: seq<real>) {
    forall i :: 0 <= i < |parts| ==> parts[i] > 0.0
  }

  ghost predicate NoneCapped(side: ImpactSide, net: real, parts: seq<real>, k: Knobs)
    requires k.reserve > 0.0 && AllPositive(parts)
    decreases |parts|
  {
    parts == [] || (Uncapped(side, parts[0], net, k) && NoneCapped(side, NetAfter(side, net, parts[0]), parts[1..], k))
  }

  /**
   Splitting does not change the charge: however a total is split, it pays the multiplier times the cost
   growth from its first to its last position exactly when no part hits the cap, and less otherwise.
   */
  lemma {:induction false} SplitPaysCostGrowth(side: ImpactSide, net: real, parts: seq<real>, k: Knobs)
    requires k.reserve > 0.0 && AllPositive(parts)
    ensures var growth := Multiplier(k) * (CostAt(side, NetAfterAll(side, net, parts), k) - CostAt(side, net, k));
            && Charged(side, net, parts, k) <= growth
            && (Charged(side, net, parts, k) == growth <==> NoneCapped(side, net, parts, k))
    decreases |parts|
  {
    hide CostAt, MarginalImpact, Uncapped;
    if parts != [] {
      PartCharge(side, parts[0], net, k);
      SplitPaysCostGrowth(side, NetAfter(side, net, parts[0]), parts[1..], k);
      GrowthAdds(Multiplier(k), CostAt(side, net, k), CostAt(side, NetAfter(side, net, parts[0]), k),
                 CostAt(side, NetAfterAll(side, net, parts), k));
    }
  }

  lemma GrowthAdds(m: real, a: real, b: real, c: real)
    ensures m * (b - a) + m * (c - b) == m * (c - a)
  {
  }

  function Total(parts: seq<real>): real {
    if parts == [] then 0.0 else parts[0] + Total(parts[1..])
  }

  lemma {:induction false} NetMovesByTotal(side: ImpactSide, net: real, parts: seq<real>)
    ensures NetAfterAll(side, net, parts) == NetAfter(side, net, Total(parts))
    decreases |parts|
  {
    if parts != [] {
      NetMovesByTotal(side, NetAfter(side, net, parts[0]), parts[1..]);
    }
  }

  /** Two splits of one total that stay under the cap pay the same. */
  lemma SplitsPayTheSame(side: ImpactSide, net: real, a: seq<real>, b: seq<real>, k: Knobs)
    requires k.reserve > 0.0 && AllPositive(a) && AllPositive(b) && Total(a) == Total(b)
    requires NoneCapped(side, net, a, k) && NoneCapped(side, net, b, k)
    ensures Charged(side, net, a, k) == Charged(side, net, b, k)
  {
    hide CostAt, Charged, NoneCapped;
    SplitPaysCostGrowth(side, net, a, k);
    SplitPaysCostGrowth(side, net, b, k);
    NetMovesByTotal(side, net, a);
    NetMovesByTotal(side, net, b);
  }

  lemma MarkupPositive(side: ImpactSide, u: real)
    requires 0.0 < u <= 0.99
    ensures MarkupAt(side, u) > 0.0
  {
    QuotientPositive(100.0 * u, if side.UserBuys? then 1.0 - u else 1.0 + u);
  }

  lemma QuotientPositive(a: real, b: real)
    requires a > 0.0 && b > 0.0
    ensures a / b > 0.0
  {
  }

  lemma SharePositive(x: real, k: Knobs)
    requires k.reserve > 0.0 && x > 0.0 && Fraction(k) > 0.0
    ensures 0.0 < PoolShare(x, k) <= 0.99
  {
    QuotientPositive(x, k.reserve);
  }

  /** The cost strictly grows with the position, also past the pool-fraction clamp. */
  lemma CostStrictlyGrows(side: ImpactSide, x: real, y: real, k: Knobs)
    requires k.reserve > 0.0 && 0.0 <= x < y && Fraction(k) > 0.0
    ensures Cost(side, x, k) < Cost(side, y, k)
  {
    hide PoolShare, MarkupAt, Fraction;
    ShareGrows(x, y, k);
    SharePositive(y, k);
    MarkupGrows(side, PoolShare(x, k), PoolShare(y, k));
    MarkupPositive(side, PoolShare(y, k));
    ProductStrictlyGrows(x, y, Markup(side, x, k), Markup(side, y, k));
  }

  lemma ProductStrictlyGrows(x: real, y: real, f: real, g: real)
    requires 0.0 <= x < y && 0.0 <= f <= g && g > 0.0
    ensures x * f < y * g
  {
    assert x * f <= x * g;
    assert (y - x) * g > 0.0;
  }

  predicate Charging(k: Knobs) {
    k.reserve > 0.0 && Fraction(k) > 0.0 && Multiplier(k) > 0.0 && Cap(k) > 0.0
  }

  /** A trade pays nothing exactly when it leaves the counterparty inside the free zone on its side, as closing legs do. */
  lemma FreeExactlyInsideZone(side: ImpactSide, quantity: real, net: real, k: Knobs)
    requires Charging(k) && quantity > 0.0
    ensures MarginalImpact(side, quantity, net, k) == 0.0 <==> Position(side, NetAfter(side, net, quantity), k) == 0.0
  {
    hide Cost, Fraction, Multiplier, Cap, Growth, Rate;
    var from, to := Position(side, net, k), Position(side, NetAfter(side, net, quantity), k);
    PositionGrows(side, net, quantity, k);
    GrowthSpreads(side, quantity, net, k);
    RateIsZero(Growth(side, quantity, net, k), Multiplier(k), Cap(k));
    NothingSpread(Growth(side, quantity, net, k), quantity);
    if to > 0.0 {
      CostStrictlyGrows(side, from, to, k);
    }
  }

  lemma RateIsZero(growth: real, multiplier: real, cap: real)
    requires growth >= 0.0 && multiplier > 0.0 && cap > 0.0
    ensures Rate(growth, multiplier, cap) == 0.0 <==> growth == 0.0
  {
    if growth > 0.0 {
      assert growth * multiplier > 0.0;
    }
  }

  lemma NothingSpread(per: real, quantity: real)
    requires quantity > 0.0
    ensures per * quantity == 0.0 <==> per == 0.0
  {
  }
}
