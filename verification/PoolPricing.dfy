/** The impact charge in the pool's own terms: what a constant-product pool adds to its spot price. */
module PoolPricing {
  import opened Wrappers
  import opened PoolImpact

  /** Moving `x` base through a pool of `reserve` base and `quotes` quote exchanges it for `q` quote. */
  predicate Exchanges(side: ImpactSide, x: real, reserve: real, quotes: real, q: real) {
    if side.UserBuys? then (reserve - x) * (quotes + q) == reserve * quotes
    else (reserve + x) * (quotes - q) == reserve * quotes
  }

  lemma Cancel(a: real, b: real, f: real)
    requires f > 0.0 && a * f == b * f
    ensures a == b
  {
    ProductOrder(a, b, f);
    ProductOrder(b, a, f);
  }

  lemma BuyerPays(x: real, reserve: real, quotes: real, q: real, spot: real, share: real, markup: real)
    requires 0.0 <= x < reserve && (reserve - x) * (quotes + q) == reserve * quotes
    requires spot * reserve == quotes && share * reserve == x && markup * (1.0 - share) == share
    ensures q == x * spot * (1.0 + markup)
  {
    var left := reserve - x;
    assert left == reserve * (1.0 - share);
    assert q * left == quotes * x;
    Times(x, spot, reserve, 1.0 + markup, 1.0 - share);
    assert (1.0 + markup) * (1.0 - share) == 1.0;
    Cancel(q, x * spot * (1.0 + markup), left);
  }

  lemma SellerGets(x: real, reserve: real, quotes: real, q: real, spot: real, share: real, markup: real)
    requires x >= 0.0 && reserve > 0.0 && (reserve + x) * (quotes - q) == reserve * quotes
    requires spot * reserve == quotes && share * reserve == x && markup * (1.0 + share) == share
    ensures q == x * spot * (1.0 - markup)
  {
    var grown := reserve + x;
    assert grown == reserve * (1.0 + share);
    assert q * grown == quotes * x;
    Times(x, spot, reserve, 1.0 - markup, 1.0 + share);
    assert (1.0 - markup) * (1.0 + share) == 1.0;
    Cancel(q, x * spot * (1.0 - markup), grown);
  }

  lemma Times(x: real, spot: real, reserve: real, a: real, b: real)
    ensures x * spot * a * (reserve * b) == x * (spot * reserve) * (a * b)
  {
    assert x * spot * a * (reserve * b) == x * spot * (a * (reserve * b));
    assert a * (reserve * b) == reserve * (a * b);
    assert x * spot * (reserve * (a * b)) == x * (spot * reserve) * (a * b);
  }

  lemma MarkupIs(side: ImpactSide, u: real)
    requires 0.0 <= u <= 0.99
    ensures var m := MarkupAt(side, u) / 100.0; if side.UserBuys? then m * (1.0 - u) == u else m * (1.0 + u) == u
  {
    var d := if side.UserBuys? then 1.0 - u else 1.0 + u;
    assert 100.0 * u / d * d == 100.0 * u;
  }

  /** The share of the pool a position may move at most. */
  function MostShare(k: Knobs): real {
    if k.maxFraction < 0.0 then 0.0 else if k.maxFraction > 0.99 then 0.99 else k.maxFraction
  }

  /** Moving `x` within the largest share exchanges at the spot price raised, or lowered, by the markup. */
  lemma MarkupIsThePools(side: ImpactSide, x: real, k: Knobs, quotes: real, q: real)
    requires k.reserve > 0.0 && 0.0 <= x <= MostShare(k) * k.reserve && Exchanges(side, x, k.reserve, quotes, q)
    ensures var spot, m := quotes / k.reserve, Markup(side, x, k) / 100.0;
            q == x * spot * if side.UserBuys? then 1.0 + m else 1.0 - m
  {
    hide *;
    var share := ShareMarkup(side, x, k);
    SpotTimes(quotes, k.reserve);
    PoolExchanges(side, x, k.reserve, quotes, q, quotes / k.reserve, share, Markup(side, x, k) / 100.0);
  }

  lemma SpotTimes(quotes: real, reserve: real)
    requires reserve > 0.0
    ensures quotes / reserve * reserve == quotes
  {
  }

  lemma ShareMarkup(side: ImpactSide, x: real, k: Knobs) returns (share: real)
    requires k.reserve > 0.0 && 0.0 <= x <= MostShare(k) * k.reserve
    ensures share * k.reserve == x && share <= 0.99
    ensures var m := Markup(side, x, k) / 100.0; if side.UserBuys? then m * (1.0 - share) == share else m * (1.0 + share) == share
  {
    share := x / k.reserve;
    ShareWithin(x, k);
    MarkupIs(side, share);
    SpotTimes(x, k.reserve);
    assert Markup(side, x, k) == MarkupAt(side, share);
    hide *;
  }

  lemma PoolExchanges(side: ImpactSide, x: real, reserve: real, quotes: real, q: real, spot: real, share: real, markup: real)
    requires reserve > 0.0 && x >= 0.0 && Exchanges(side, x, reserve, quotes, q)
    requires spot * reserve == quotes && share * reserve == x && share <= 0.99
    requires if side.UserBuys? then markup * (1.0 - share) == share else markup * (1.0 + share) == share
    ensures q == x * spot * if side.UserBuys? then 1.0 + markup else 1.0 - markup
  {
    if side.UserBuys? {
      BelowReserve(x, share, reserve);
      BuyerPays(x, reserve, quotes, q, spot, share, markup);
    } else {
      SellerGets(x, reserve, quotes, q, spot, share, markup);
    }
  }

  lemma BelowReserve(x: real, share: real, reserve: real)
    requires reserve > 0.0 && share * reserve == x && share <= 0.99
    ensures x < reserve
  {
    ProductOrder(share, 1.0, reserve);
  }

  lemma ShareWithin(x: real, k: Knobs)
    requires k.reserve > 0.0 && 0.0 <= x <= MostShare(k) * k.reserve
    ensures 0.0 <= x / k.reserve <= MostShare(k) <= 0.99 && PoolShare(x, k) == x / k.reserve
  {
    var share := x / k.reserve;
    assert share * k.reserve == x;
    ShareOrder(x, k.reserve, share, MostShare(k));
  }

  lemma ShareOrder(x: real, reserve: real, share: real, most: real)
    requires reserve > 0.0 && share * reserve == x
    ensures 0.0 <= x ==> 0.0 <= share
    ensures x <= most * reserve <==> share <= most
    ensures most * reserve <= x <==> most <= share
  {
    ProductOrder(0.0, share, reserve);
    ProductOrder(share, most, reserve);
    ProductOrder(most, share, reserve);
  }

  /** What the exchange of `x` for `q` adds to, or takes from, its spot value. */
  function Extra(side: ImpactSide, x: real, reserve: real, quotes: real, q: real): real
    requires reserve > 0.0
  {
    var atSpot := x * (quotes / reserve);
    if side.UserBuys? then q - atSpot else atSpot - q
  }

  lemma CostIsExtra(side: ImpactSide, x: real, k: Knobs, quotes: real, q: real)
    requires k.reserve > 0.0 && 0.0 <= x <= MostShare(k) * k.reserve && Exchanges(side, x, k.reserve, quotes, q)
    ensures Extra(side, x, k.reserve, quotes, q) == Cost(side, x, k) * (quotes / k.reserve / 100.0)
  {
    MarkupIsThePools(side, x, k, quotes, q);
    hide Markup, Exchanges;
    ExtraIs(x, quotes / k.reserve, Markup(side, x, k));
  }

  lemma ExtraIs(x: real, spot: real, markup: real)
    ensures x * spot * (1.0 + markup / 100.0) - x * spot == x * markup * (spot / 100.0)
    ensures x * spot - x * spot * (1.0 - markup / 100.0) == x * markup * (spot / 100.0)
  {
  }

  /** How far past the free zone a net stands, on the side being traded. */
  function Past(side: ImpactSide, net: real, freeZone: real): real {
    var towards := if side.UserBuys? then net else -net;
    var zone := if freeZone > 0.0 then freeZone else 0.0;
    if towards > zone then towards - zone else 0.0
  }

  /** The charge on a trade, in units of `unit`, is the multiplier times what is added, or the cap where that is less. */
  ghost predicate ChargedAs(side: ImpactSide, quantity: real, net: real, k: Knobs, unit: real, multiplier: real, cap: real, added: real) {
    MarginalImpact(side, quantity, net, k) * quantity * unit == Min(cap * quantity * unit, multiplier * added)
  }

  /**
   The charge is the pool's: a trade from `net` is charged, at the spot price, the multiplier times what a
   constant-product pool would add between the two positions past the free zone, or the cap where that is less.
   */
  lemma ChargeIsThePools(side: ImpactSide, quantity: real, net: real, k: Knobs, quotes: real, qFrom: real, qTo: real)
    requires k.reserve > 0.0 && quantity > 0.0 && quotes > 0.0
    requires var to := Past(side, if side.UserBuys? then net + quantity else net - quantity, k.freeZone);
             && to <= MostShare(k) * k.reserve
             && Exchanges(side, Past(side, net, k.freeZone), k.reserve, quotes, qFrom) && Exchanges(side, to, k.reserve, quotes, qTo)
    ensures var spot := quotes / k.reserve;
            var to := Past(side, if side.UserBuys? then net + quantity else net - quantity, k.freeZone);
            var added := Extra(side, to, k.reserve, quotes, qTo) - Extra(side, Past(side, net, k.freeZone), k.reserve, quotes, qFrom);
            var multiplier, cap := if k.multiplier > 0.0 then k.multiplier else 0.0, if k.cap > 0.0 then k.cap else 0.0;
            ChargedAs(side, quantity, net, k, spot / 100.0, multiplier, cap, added)
  {
    PastIsPosition(side, net, quantity, k);
    ClampsAre(k);
    var from, to := Past(side, net, k.freeZone), Past(side, if side.UserBuys? then net + quantity else net - quantity, k.freeZone);
    assert NetAfter(side, net, quantity) == if side.UserBuys? then net + quantity else net - quantity;
    hide *;
    UnitPositive(quotes, k.reserve);
    CostsAreExtras(side, from, to, k, quotes, qFrom, qTo);
    ChargeOfCosts(side, quantity, net, k, from, to, quotes / k.reserve / 100.0);
  }

  lemma ClampsAre(k: Knobs)
    ensures Multiplier(k) == (if k.multiplier > 0.0 then k.multiplier else 0.0) && Cap(k) == if k.cap > 0.0 then k.cap else 0.0
  {
  }

  /** The cost growth between two positions, in units of `unit`. */
  function Risen(side: ImpactSide, from: real, to: real, k: Knobs, unit: real): real
    requires k.reserve > 0.0
  {
    (Cost(side, to, k) - Cost(side, from, k)) * unit
  }

  lemma CostsAreExtras(side: ImpactSide, from: real, to: real, k: Knobs, quotes: real, qFrom: real, qTo: real)
    requires k.reserve > 0.0 && 0.0 <= from <= to <= MostShare(k) * k.reserve
    requires Exchanges(side, from, k.reserve, quotes, qFrom) && Exchanges(side, to, k.reserve, quotes, qTo)
    ensures Extra(side, to, k.reserve, quotes, qTo) - Extra(side, from, k.reserve, quotes, qFrom)
            == Risen(side, from, to, k, quotes / k.reserve / 100.0)
  {
    hide Extra, Exchanges, Cost, MostShare;
    CostIsExtra(side, from, k, quotes, qFrom);
    CostIsExtra(side, to, k, quotes, qTo);
    SpreadOver(Cost(side, to, k), Cost(side, from, k), quotes / k.reserve / 100.0);
  }

  lemma PastIsPosition(side: ImpactSide, net: real, quantity: real, k: Knobs)
    requires quantity > 0.0
    ensures Past(side, net, k.freeZone) == Position(side, net, k)
    ensures Past(side, NetAfter(side, net, quantity), k.freeZone) == Position(side, NetAfter(side, net, quantity), k)
    ensures 0.0 <= Past(side, net, k.freeZone) <= Past(side, NetAfter(side, net, quantity), k.freeZone)
  {
  }

  lemma ChargeOfCosts(side: ImpactSide, quantity: real, net: real, k: Knobs, from: real, to: real, unit: real)
    requires k.reserve > 0.0 && quantity > 0.0 && unit > 0.0
    requires from == Position(side, net, k) && to == Position(side, NetAfter(side, net, quantity), k)
    ensures ChargedAs(side, quantity, net, k, unit, Multiplier(k), Cap(k), Risen(side, from, to, k, unit))
  {
    hide MarginalImpact, Cost, Cap, Multiplier, Position;
    ChargeIsSmaller(side, quantity, net, k);
    var rise := Cost(side, to, k) - Cost(side, from, k);
    assert CostAt(side, NetAfter(side, net, quantity), k) - CostAt(side, net, k) == rise;
    ScaledMin(MarginalImpact(side, quantity, net, k) * quantity, Cap(k) * quantity, Multiplier(k), rise, unit);
  }

  lemma UnitPositive(quotes: real, reserve: real)
    requires quotes > 0.0 && reserve > 0.0
    ensures quotes / reserve / 100.0 > 0.0
  {
    QuotientPositive(quotes, reserve);
  }

  lemma SpreadOver(to: real, from: real, unit: real)
    ensures to * unit - from * unit == (to - from) * unit
  {
  }

  lemma ScaledMin(charge: real, most: real, multiplier: real, rise: real, unit: real)
    requires unit > 0.0 && charge == Min(most, multiplier * rise)
    ensures charge * unit == Min(most * unit, multiplier * (rise * unit))
  {
    ProductOrder(most, multiplier * rise, unit);
    assert multiplier * rise * unit == multiplier * (rise * unit);
  }

  /** Past the largest share the price stops moving: the charge per unit from a standing start stays what it is there. */
  lemma ChargeStopsGrowing(side: ImpactSide, quantity: real, k: Knobs)
    requires k.reserve > 0.0 && k.freeZone <= 0.0 && MostShare(k) > 0.0 && quantity >= MostShare(k) * k.reserve
    ensures MarginalImpact(side, quantity, 0.0, k) == MarginalImpact(side, MostShare(k) * k.reserve, 0.0, k)
  {
    var edge := MostShare(k) * k.reserve;
    ProductOrder(0.0, MostShare(k), k.reserve);
    FromStandstill(side, quantity, k);
    FromStandstill(side, edge, k);
    ShareBeyond(quantity, k);
    ShareBeyond(edge, k);
    hide MarkupAt, PoolShare;
  }

  lemma ShareBeyond(x: real, k: Knobs)
    requires k.reserve > 0.0 && x >= MostShare(k) * k.reserve
    ensures PoolShare(x, k) == MostShare(k)
  {
    var share := x / k.reserve;
    assert share * k.reserve == x;
    ShareOrder(x, k.reserve, share, MostShare(k));
  }

  /** From a standing start the growth per unit is the markup itself. */
  lemma FromStandstill(side: ImpactSide, x: real, k: Knobs)
    requires k.reserve > 0.0 && k.freeZone <= 0.0 && x > 0.0
    ensures MarginalImpact(side, x, 0.0, k) == Rate(Markup(side, x, k), Multiplier(k), Cap(k))
  {
    hide Markup, Rate;
    var m := Markup(side, x, k);
    assert CostAt(side, NetAfter(side, 0.0, x), k) == x * m;
    assert CostAt(side, 0.0, k) == 0.0;
    PerUnit(x, m);
  }

  lemma PerUnit(x: real, m: real)
    requires x > 0.0
    ensures x * m / x == m
  {
    var r := x * m / x;
    assert r * x == x * m;
    Cancel(r, m, x);
  }
}
