/** Prices of grid rungs as placed, and the guard that keeps a one-sided refresh from crossing the kept side. */
module GridPricing {
  import opened Wrappers

  datatype Side = Bid | Offer

  datatype Level = Level(deltaPercent: real, quantity: real)

  /** A resting order; `partial` when some of it is filled. */
  datatype Resting = Resting(id: nat, side: Side, price: real, partial: bool)

  datatype SideAction = Keep | Replace | Cancel

  datatype Plan = Plan(bid: SideAction, offer: SideAction) {
    function On(side: Side): SideAction {
      if side.Bid? then bid else offer
    }
  }

  /** Prices are written with ten decimals. */
  const UNITS: real := 10_000_000_000.0

  function Ceiling(x: real): int {
    -((-x).Floor)
  }

  /** The nearest whole number, ties to even. */
  function Nearest(x: real): (n: int)
    ensures x - 0.5 <= n as real <= x + 0.5
  {
    var down := x.Floor;
    var rest := x - down as real;
    if rest < 0.5 || (rest == 0.5 && down % 2 == 0) then down else down + 1
  }

  function Written(price: real): real {
    Nearest(price * UNITS) as real / UNITS
  }

  function Steps(mid: real, deltaPercent: real, tick: real): real
    requires tick > 0.0
  {
    mid * (1.0 + deltaPercent / 100.0) / tick
  }

  function AtTick(n: int, tick: real): real {
    Written(n as real * tick)
  }

  function Placed(side: Side, steps: real, tick: real): real {
    AtTick(if side.Bid? then steps.Floor else Ceiling(steps), tick)
  }

  /** Price of a new rung as placed: bids round down to the tick, offers up. */
  function RungPrice(side: Side, mid: real, deltaPercent: real, tick: real): real
    requires tick > 0.0
  {
    Placed(side, Steps(mid, deltaPercent, tick), tick)
  }

  // When two rungs stay apart

  ghost predicate Apart(mid: real, bidDelta: real, offerDelta: real, tick: real)
    requires tick > 0.0
  {
    RungPrice(Bid, mid, bidDelta, tick) < RungPrice(Offer, mid, offerDelta, tick)
  }

  lemma StepsIncrease(mid: real, a: real, b: real, tick: real)
    requires mid > 0.0 && tick > 0.0 && a < b
    ensures Steps(mid, a, tick) < Steps(mid, b, tick)
  {
    var x := 1.0 + a / 100.0;
    var y := 1.0 + b / 100.0;
    assert mid * x < mid * y;
    DivideIncreases(mid * x, mid * y, tick);
  }

  lemma DivideIncreases(a: real, b: real, d: real)
    requires d > 0.0 && a < b
    ensures a / d < b / d
  {
  }

  lemma WrittenApart(low: int, high: int, tick: real)
    requires low < high && tick * UNITS >= 1.0
    ensures AtTick(low, tick) < AtTick(high, tick)
  {
    var unit := tick * UNITS;
    var x := low as real * tick * UNITS;
    var y := high as real * tick * UNITS;
    assert x == low as real * unit && y == high as real * unit;
    assert y - x == (high - low) as real * unit;
    assert (high - low) as real * unit >= 1.0 * unit;
    if unit == 1.0 {
      assert Nearest(x) == low && Nearest(y) == high;
    } else {
      assert y - x > 1.0;
    }
    DivideIncreases(Nearest(x) as real, Nearest(y) as real, UNITS);
  }

  lemma PlacedApart(x: real, y: real, tick: real)
    requires x < y && tick * UNITS >= 1.0
    ensures Placed(Bid, x, tick) < Placed(Offer, y, tick)
  {
    FloorBelowCeiling(x, y);
    WrittenApart(x.Floor, Ceiling(y), tick);
  }

  lemma FloorBelowCeiling(x: real, y: real)
    requires x < y
    ensures x.Floor < Ceiling(y)
  {
  }

  lemma RungsApart(mid: real, bidDelta: real, offerDelta: real, tick: real)
    requires mid > 0.0 && bidDelta < offerDelta && tick > 0.0 && tick * UNITS >= 1.0
    ensures Apart(mid, bidDelta, offerDelta, tick)
  {
    StepsIncrease(mid, bidDelta, offerDelta, tick);
    PlacedApart(Steps(mid, bidDelta, tick), Steps(mid, offerDelta, tick), tick);
  }

  /** The `k`-th multiple of `unit`, rounded. */
  function Rounded(k: int, unit: real): int {
    Nearest(k as real * unit)
  }

  lemma RoundedGrows(k: int, unit: real)
    requires unit > 0.0
    ensures Rounded(k, unit) <= Rounded(k + 1, unit)
  {
    var x := k as real * unit;
    assert (k + 1) as real * unit == x + unit;
    NearestMonotone(x, x + unit);
  }

  lemma NearestMonotone(x: real, y: real)
    requires x <= y
    ensures Nearest(x) <= Nearest(y)
  {
    assert x.Floor <= y.Floor;
  }

  ghost predicate Collides(k: int, unit: real) {
    Rounded(k, unit) == Rounded(k + 1, unit)
  }

  /** If no two neighbours among the first `k` multiples round together, the `k`-th rounds to at least `k`. */
  lemma {:induction false} SpreadOut(unit: real, k: nat)
    requires unit > 0.0
    requires forall i :: 0 <= i < k ==> !Collides(i, unit)
    ensures Rounded(k, unit) >= k
  {
    if k > 0 {
      SpreadOut(unit, k - 1);
      assert !Collides(k - 1, unit);
      RoundedGrows(k - 1, unit);
    }
  }

  lemma ProductPositive(a: real, b: real)
    requires a > 0.0 && b > 0.0
    ensures a * b > 0.0
  {
  }

  lemma HalfOver(d: real) returns (h: real)
    requires d > 0.0
    ensures h > 0.0 && h * d == 0.5
  {
    h := 0.5 / d;
  }

  lemma Distributes(a: real, b: real, c: real)
    ensures (a - b) * c == a * c - b * c
    ensures a * (1.0 - c) == a - a * c
    ensures a * (1.0 + c) == a + a * c
  {
  }

  /** Enough multiples of a unit below one fall more than a half short of their count. */
  lemma FallsShort(unit: real) returns (count: nat)
    requires 0.0 < unit < 1.0
    ensures count as real * unit + 0.5 < count as real
  {
    var h := HalfOver(1.0 - unit);
    count := h.Floor + 1;
    var c := count as real;
    ProductPositive(c - h, 1.0 - unit);
    Distributes(c, h, 1.0 - unit);
    Distributes(c, h, unit);
  }

  lemma NeighboursCollide(unit: real) returns (k: nat)
    requires 0.0 < unit < 1.0
    ensures Collides(k, unit)
  {
    var count := FallsShort(unit);
    if forall i :: 0 <= i < count ==> !Collides(i, unit) {
      SpreadOut(unit, count);
      assert false;
    }
    k :| 0 <= k < count && Collides(k, unit);
  }

  lemma StepsAtOffset(n: real, e: real, tick: real)
    requires tick > 0.0
    ensures Steps((n + 0.5) * tick, 100.0 * e, tick) == (n + 0.5) * (1.0 + e)
  {
    var mid := (n + 0.5) * tick;
    var factor := 1.0 + 100.0 * e / 100.0;
    assert factor == 1.0 + e;
    var p := mid * factor;
    var x := (n + 0.5) * (1.0 + e);
    assert p == x * tick;
    QuotientIs(p, tick, x);
    assert Steps(mid, 100.0 * e, tick) == p / tick;
  }

  lemma StepsAroundHalf(n: real, e: real)
    requires n >= 0.0 && e > 0.0 && e * (n + 1.0) == 0.5
    ensures n < (n + 0.5) * (1.0 - e) < (n + 0.5) * (1.0 + e) < n + 1.0
  {
    Distributes(n + 0.5, 0.0, e);
    assert (n + 0.5) * e == 0.5 - 0.5 * e;
  }

  /** A rung strictly between two ticks is placed at the tick on its own side. */
  lemma RungBetweenTicks(side: Side, mid: real, deltaPercent: real, tick: real, k: nat)
    requires tick > 0.0 && k as real < Steps(mid, deltaPercent, tick) < (k + 1) as real
    ensures RungPrice(side, mid, deltaPercent, tick) == AtTick(if side.Bid? then k else k + 1, tick)
  {
    hide AtTick, Steps;
    BetweenWhole(Steps(mid, deltaPercent, tick), k);
  }

  lemma CollisionWritten(k: nat, tick: real)
    requires Collides(k, tick * UNITS)
    ensures AtTick(k, tick) == AtTick(k + 1, tick)
  {
    hide AtTick;
    WrittenMultiple(k, tick);
    WrittenMultiple(k + 1, tick);
  }

  /** Below the last written decimal, some ladder around some mid is written at one and the same price. */
  lemma FineTickCollides(tick: real) returns (mid: real, delta: real)
    requires tick > 0.0 && tick * UNITS < 1.0
    ensures mid > 0.0 && delta > 0.0 && !Apart(mid, -delta, delta, tick)
  {
    hide RungPrice, AtTick, Collides, Steps;
    var k := CollidingTicks(tick);
    var n := k as real;
    var e := HalfOver(n + 1.0);
    ProductPositive(n + 0.5, tick);
    StepsAroundHalf(n, e);
    StepsAtOffset(n, -e, tick);
    StepsAtOffset(n, e, tick);
    mid, delta := (n + 0.5) * tick, 100.0 * e;
    assert 100.0 * -e == -delta;
    RungBetweenTicks(Bid, mid, -delta, tick, k);
    RungBetweenTicks(Offer, mid, delta, tick, k);
  }

  lemma CollidingTicks(tick: real) returns (k: nat)
    requires tick > 0.0 && tick * UNITS < 1.0
    ensures AtTick(k, tick) == AtTick(k + 1, tick)
  {
    hide AtTick, Collides;
    k := NeighboursCollide(tick * UNITS);
    CollisionWritten(k, tick);
  }

  lemma BetweenWhole(x: real, k: int)
    requires k as real < x < (k + 1) as real
    ensures x.Floor == k && Ceiling(x) == k + 1
  {
  }

  lemma WrittenMultiple(k: int, tick: real)
    ensures AtTick(k, tick) == Rounded(k, tick * UNITS) as real / UNITS
  {
    assert k as real * tick * UNITS == k as real * (tick * UNITS);
  }

  lemma QuotientIs(p: real, d: real, x: real)
    requires d != 0.0 && p == x * d
    ensures p / d == x
  {
  }

  ghost predicate AlwaysApart(tick: real)
    requires tick > 0.0
  {
    forall mid: real, b: real, o: real :: mid > 0.0 && b < o ==> Apart(mid, b, o, tick)
  }

  /** Strictly separated ladders are placed strictly apart, for every mid, exactly when the tick is at least the last written decimal. */
  lemma RungsApartExactly(tick: real)
    requires tick > 0.0
    ensures AlwaysApart(tick) <==> tick >= 0.0000000001
  {
    if tick * UNITS >= 1.0 {
      forall mid: real, b: real, o: real | mid > 0.0 && b < o ensures Apart(mid, b, o, tick) {
        RungsApart(mid, b, o, tick);
      }
    } else {
      var mid, delta := FineTickCollides(tick);
    }
  }

  // The one-sided guard

  function Best(side: Side, prices: seq<real>): (best: Option<real>)
    ensures best.None? <==> prices == []
    ensures best.Some? ==> best.value in prices
    ensures best.Some? ==> forall p :: p in prices ==> if side.Bid? then p <= best.value else p >= best.value
  {
    if prices == [] then None
    else
      assert prices == [prices[0]] + prices[1..];
      var rest := Best(side, prices[1..]);
      if rest.None? || (if side.Bid? then prices[0] >= rest.value else prices[0] <= rest.value)
      then Some(prices[0]) else rest
  }

  function RungPrices(levels: seq<Level>, side: Side, mid: real, tick: real): (prices: seq<real>)
    requires tick > 0.0
    ensures |prices| == |levels|
    ensures forall i :: 0 <= i < |levels| ==> prices[i] == RungPrice(side, mid, levels[i].deltaPercent, tick)
  {
    seq(|levels|, i requires 0 <= i < |levels| => RungPrice(side, mid, levels[i].deltaPercent, tick))
  }

  function OnSide(orders: seq<Resting>, side: Side): (r: seq<Resting>)
    ensures forall o :: o in r <==> o in orders && o.side == side
  {
    if orders == [] then []
    else (if orders[0].side == side then [orders[0]] else []) + OnSide(orders[1..], side)
  }

  function RestingPrices(orders: seq<Resting>, side: Side): (prices: seq<real>)
    ensures forall o :: o in orders && o.side == side ==> o.price in prices
    ensures forall p :: p in prices ==> exists o :: o in orders && o.side == side && o.price == p
  {
    if orders == [] then []
    else (if orders[0].side == side then [orders[0].price] else []) + RestingPrices(orders[1..], side)
  }

  function Escalate(fundable: bool): SideAction {
    if fundable then Replace else Cancel
  }

  /** A one-sided refresh whose tightest new rung would reach the kept side's best order refreshes that side too, or withdraws it. */
  function Uncross(plan: Plan, bidLevels: seq<Level>, offerLevels: seq<Level>, mid: real, tick: real,
                   orders: seq<Resting>, bidFundable: bool, offerFundable: bool): Plan
    requires tick > 0.0
  {
    if plan == Plan(Replace, Keep) then
      var bid := Best(Bid, RungPrices(bidLevels, Bid, mid, tick));
      var offer := Best(Offer, RestingPrices(orders, Offer));
      if bid.Some? && offer.Some? && bid.value >= offer.value then Plan(Replace, Escalate(offerFundable)) else plan
    else if plan == Plan(Keep, Replace) then
      var bid := Best(Bid, RestingPrices(orders, Bid));
      var offer := Best(Offer, RungPrices(offerLevels, Offer, mid, tick));
      if bid.Some? && offer.Some? && offer.value <= bid.value then Plan(Escalate(bidFundable), Replace) else plan
    else
      plan
  }

  /** Some new bid rung would reach some resting offer, or some new offer rung some resting bid. */
  ghost predicate Reaches(side: Side, levels: seq<Level>, mid: real, tick: real, orders: seq<Resting>)
    requires tick > 0.0
  {
    exists i, o :: 0 <= i < |levels| && o in orders && o.side != side
      && (if side.Bid? then RungPrice(Bid, mid, levels[i].deltaPercent, tick) >= o.price
          else RungPrice(Offer, mid, levels[i].deltaPercent, tick) <= o.price)
  }

  lemma ReachesByBest(side: Side, levels: seq<Level>, mid: real, tick: real, orders: seq<Resting>)
    requires tick > 0.0
    ensures var tightest := Best(side, RungPrices(levels, side, mid, tick));
            var kept := Best(if side.Bid? then Offer else Bid, RestingPrices(orders, if side.Bid? then Offer else Bid));
            Reaches(side, levels, mid, tick, orders)
            <==> tightest.Some? && kept.Some? && if side.Bid? then tightest.value >= kept.value else tightest.value <= kept.value
  {
    hide RungPrice;
    var other := if side.Bid? then Offer else Bid;
    var rungs, resting := RungPrices(levels, side, mid, tick), RestingPrices(orders, other);
    var best, kept := Best(side, rungs), Best(other, resting);
    if Reaches(side, levels, mid, tick, orders) {
      var i, o :| 0 <= i < |levels| && o in orders && o.side != side
        && (if side.Bid? then RungPrice(Bid, mid, levels[i].deltaPercent, tick) >= o.price
            else RungPrice(Offer, mid, levels[i].deltaPercent, tick) <= o.price);
      assert rungs[i] in rungs && o.price in resting;
    }
    if best.Some? && kept.Some? {
      var i :| 0 <= i < |rungs| && rungs[i] == best.value;
      var o :| o in orders && o.side == other && o.price == kept.value;
    }
  }

  /** What a kept side becomes beside a refreshed one: it stays kept exactly when no new rung reaches an order on it. */
  function Guarded(reached: bool, fundable: bool): SideAction {
    if !reached then Keep else if fundable then Replace else Cancel
  }

  /** `uncross` changes nothing but the kept side of a one-sided refresh, and that only when some new rung reaches it. */
  lemma UncrossExactly(plan: Plan, bidLevels: seq<Level>, offerLevels: seq<Level>, mid: real, tick: real,
                       orders: seq<Resting>, bidFundable: bool, offerFundable: bool)
    requires tick > 0.0
    ensures Uncross(plan, bidLevels, offerLevels, mid, tick, orders, bidFundable, offerFundable) ==
              if plan == Plan(Replace, Keep) then Plan(Replace, Guarded(Reaches(Bid, bidLevels, mid, tick, orders), offerFundable))
              else if plan == Plan(Keep, Replace) then Plan(Guarded(Reaches(Offer, offerLevels, mid, tick, orders), bidFundable), Replace)
              else plan
  {
    ReachesByBest(Bid, bidLevels, mid, tick, orders);
    ReachesByBest(Offer, offerLevels, mid, tick, orders);
    hide Reaches, Best, RungPrices, RestingPrices;
  }

  // Where a rung is placed

  /** Half the last written decimal. */
  const HALF: real := 0.00000000005

  lemma WrittenNear(price: real)
    ensures price - HALF <= Written(price) <= price + HALF
  {
    var n := Nearest(price * UNITS);
    assert n as real / UNITS * UNITS == n as real;
  }

  /** A whole number of ticks at most one below, or above, a position is less than one tick from it. */
  lemma TickBelow(exact: real, tick: real, steps: real, whole: real, at: real)
    requires tick > 0.0 && steps * tick == exact && whole <= steps < whole + 1.0 && at == whole * tick
    ensures exact - tick < at <= exact
  {
    var past, short := steps - whole, whole + 1.0 - steps;
    SignOfProduct(past, tick);
    SignOfProduct(short, tick);
    assert past * tick == exact - at && short * tick == at + tick - exact;
  }

  lemma TickAbove(exact: real, tick: real, steps: real, whole: real, at: real)
    requires tick > 0.0 && steps * tick == exact && steps <= whole < steps + 1.0 && at == whole * tick
    ensures exact <= at < exact + tick
  {
    var past, short := whole - steps, steps + 1.0 - whole;
    SignOfProduct(past, tick);
    SignOfProduct(short, tick);
    assert past * tick == at - exact && short * tick == exact + tick - at;
  }

  lemma SignOfProduct(a: real, b: real)
    requires a >= 0.0 && b > 0.0
    ensures a * b >= 0.0 && (a > 0.0 ==> a * b > 0.0)
  {
  }

  /** `exact` is the `n`-th tick. */
  predicate OnTick(exact: real, tick: real, n: int) {
    exact == n as real * tick
  }

  lemma PlacedIs(side: Side, tick: real, steps: real) returns (at: real)
    ensures at == (if side.Bid? then steps.Floor else Ceiling(steps)) as real * tick
    ensures Placed(side, steps, tick) == Written(at) && at - HALF <= Written(at) <= at + HALF
  {
    at := (if side.Bid? then steps.Floor else Ceiling(steps)) as real * tick;
    WrittenNear(at);
  }

  lemma PlacedNear(side: Side, exact: real, tick: real, steps: real)
    requires tick > 0.0 && steps * tick == exact
    ensures var price := Placed(side, steps, tick);
            if side.Bid? then exact - tick - HALF < price <= exact + HALF else exact - HALF <= price < exact + tick + HALF
  {
    var whole := if side.Bid? then steps.Floor else Ceiling(steps);
    assert if side.Bid? then whole as real <= steps < whole as real + 1.0 else steps <= whole as real < steps + 1.0;
    hide *;
    var at := PlacedIs(side, tick, steps);
    if side.Bid? {
      TickBelow(exact, tick, steps, whole as real, at);
    } else {
      TickAbove(exact, tick, steps, whole as real, at);
    }
  }

  lemma StepsAre(mid: real, deltaPercent: real, tick: real)
    requires tick > 0.0
    ensures Steps(mid, deltaPercent, tick) * tick == mid * (1.0 + deltaPercent / 100.0)
  {
    var exact := mid * (1.0 + deltaPercent / 100.0);
    assert exact / tick * tick == exact;
  }

  lemma PlacedOnTick(side: Side, exact: real, tick: real, steps: real, n: int)
    requires tick > 0.0 && steps * tick == exact && OnTick(exact, tick, n)
    ensures exact - HALF <= Placed(side, steps, tick) <= exact + HALF
  {
    assert steps == n as real by { SameSteps(steps, n as real, tick); }
    WholeSteps(steps, n);
    hide *;
    var at := PlacedIs(side, tick, steps);
  }

  lemma WholeSteps(steps: real, n: int)
    requires steps == n as real
    ensures steps.Floor == n && Ceiling(steps) == n
  {
  }

  lemma SameSteps(a: real, b: real, tick: real)
    requires tick > 0.0 && a * tick == b * tick
    ensures a == b
  {
    assert (a - b) * tick == 0.0;
  }

  /**
   A bid rung is placed at or below its exact price and an offer rung at or above it, less than one tick away and on
   it when the exact price is a whole number of ticks, all up to half the last written decimal.
   */
  lemma RungNearExact(side: Side, mid: real, deltaPercent: real, tick: real, n: int)
    requires tick > 0.0
    ensures var exact, price := mid * (1.0 + deltaPercent / 100.0), RungPrice(side, mid, deltaPercent, tick);
            && (if side.Bid? then exact - tick - HALF < price <= exact + HALF else exact - HALF <= price < exact + tick + HALF)
            && (OnTick(exact, tick, n) ==> exact - HALF <= price <= exact + HALF)
  {
    var exact, steps := mid * (1.0 + deltaPercent / 100.0), Steps(mid, deltaPercent, tick);
    StepsAre(mid, deltaPercent, tick);
    hide Steps, Placed, OnTick;
    PlacedNear(side, exact, tick, steps);
    if OnTick(exact, tick, n) {
      PlacedOnTick(side, exact, tick, steps, n);
    }
  }
}
