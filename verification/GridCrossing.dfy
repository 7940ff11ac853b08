/** Whether a visit leaves the book uncrossed: for which ticks it always does. */
module GridCrossing {
  import opened Wrappers
  import opened GridPricing
  import opened GridOps
  import opened GridVisit

  ghost predicate Uncrossed(book: seq<Resting>) {
    forall b, o :: b in book && o in book && b.side.Bid? && o.side.Offer? ==> b.price < o.price
  }

  ghost predicate Separated(x: Inputs) {
    forall i, j :: 0 <= i < |x.bidLevels| && 0 <= j < |x.offerLevels| ==>
      x.bidLevels[i].deltaPercent < x.offerLevels[j].deltaPercent
  }

  lemma RungAgainstResting(m: Market, x: Inputs, b: Resting, o: Resting)
    requires b.side.Bid? && o.side.Offer?
    requires var plan := FinalPlan(m, x);
             || (plan == Plan(Replace, Keep) && AtRung(x, b) && o in m.book)
             || (plan == Plan(Keep, Replace) && b in m.book && AtRung(x, o))
    ensures b.price < o.price
  {
    if FinalPlan(m, x) == Plan(Replace, Keep) {
      assert b.price in RungPrices(x.bidLevels, Bid, x.price, x.tick);
      assert o.price in RestingPrices(m.book, Offer);
    } else {
      assert o.price in RungPrices(x.offerLevels, Offer, x.price, x.tick);
      assert b.price in RestingPrices(m.book, Bid);
    }
  }

  /** At a tick no finer than the written prices, whatever a visit leaves of an uncrossed book is uncrossed. */
  lemma VisitKeepsUncrossed(m: Market, x: Inputs)
    requires Sound(m) && Uncrossed(m.book) && Separated(x) && x.tick * UNITS >= 1.0
    ensures Uncrossed(Visited(m, x).book)
  {
    var plan := FinalPlan(m, x);
    var after := Visited(m, x).book;
    if !(x.bid == Unknown && x.offer == Unknown) {
      forall b, o | b in after && o in after && b.side.Bid? && o.side.Offer? ensures b.price < o.price {
        FinalSides(m, x, b);
        FinalSides(m, x, o);
        if plan == Plan(Replace, Replace) {
          var i :| 0 <= i < |x.bidLevels| && b.price == RungPrice(Bid, x.price, x.bidLevels[i].deltaPercent, x.tick);
          var j :| 0 <= j < |x.offerLevels| && o.price == RungPrice(Offer, x.price, x.offerLevels[j].deltaPercent, x.tick);
          RungsApart(x.price, x.bidLevels[i].deltaPercent, x.offerLevels[j].deltaPercent, x.tick);
        } else if plan != Plan(Keep, Keep) {
          RungAgainstResting(m, x, b, o);
        }
      }
    }
  }

  /** A first visit to an empty market with one rung a side, `delta` percent either side of `mid`. */
  function FirstVisit(mid: Price, delta: real, tick: Price): Inputs {
    Inputs(mid, tick, 1.0, Funded, Funded, [Level(-delta, 1.0)], [Level(delta, 1.0)])
  }

  const NEW_MARKET := Market(Anchors(None, None), false, None, [], 0)

  lemma FirstVisitReplacesBoth(mid: Price, delta: real, tick: Price)
    ensures FinalPlan(NEW_MARKET, FirstVisit(mid, delta, tick)) == Plan(Replace, Replace)
  {
  }

  lemma SomeOrder(book: seq<Resting>, side: Side) returns (o: Resting)
    requires SideCount(book, side) > 0
    ensures o in book && o.side == side
  {
    o := OnSide(book, side)[0];
    assert o in OnSide(book, side);
  }

  lemma FirstVisitFillsSide(mid: Price, delta: real, tick: Price, side: Side)
    ensures SideCount(Visited(NEW_MARKET, FirstVisit(mid, delta, tick)).book, side) == 1
  {
    FirstVisitReplacesBoth(mid, delta, tick);
    SideAfter(NEW_MARKET, FirstVisit(mid, delta, tick), side);
    hide Visited, FinalPlan, SideCount;
  }

  /** A first visit leaves an order on `side`, resting at its one rung. */
  lemma FirstVisitPlaces(mid: Price, delta: real, tick: Price, side: Side) returns (o: Resting)
    ensures var x := FirstVisit(mid, delta, tick);
            && o in Visited(NEW_MARKET, x).book && o.side == side
            && o.price == RungPrice(side, mid, if side.Bid? then -delta else delta, tick)
  {
    hide RungPrice, Ops, Exec, FinalPlan, SideCount;
    var x := FirstVisit(mid, delta, tick);
    FirstVisitReplacesBoth(mid, delta, tick);
    FirstVisitFillsSide(mid, delta, tick, side);
    o := SomeOrder(Visited(NEW_MARKET, x).book, side);
    FinalSides(NEW_MARKET, x, o);
  }

  /** At a finer tick some first visit leaves its bid at or above its offer. */
  lemma FineTickCrosses(tick: Price) returns (x: Inputs)
    requires tick * UNITS < 1.0
    ensures x.tick == tick && Separated(x) && !Uncrossed(Visited(NEW_MARKET, x).book)
  {
    hide *;
    var mid, delta := FineTickCollides(tick);
    x := FirstVisit(mid, delta, tick);
    FirstVisitShape(mid, delta, tick);
    var b := FirstVisitPlaces(mid, delta, tick, Bid);
    var o := FirstVisitPlaces(mid, delta, tick, Offer);
    NotApart(mid, delta, tick, Visited(NEW_MARKET, x).book, b, o);
  }

  lemma FirstVisitShape(mid: Price, delta: real, tick: Price)
    ensures FirstVisit(mid, delta, tick).tick == tick && (delta > 0.0 ==> Separated(FirstVisit(mid, delta, tick)))
  {
  }

  lemma NotApart(mid: real, delta: real, tick: Price, book: seq<Resting>, b: Resting, o: Resting)
    requires !Apart(mid, -delta, delta, tick) && b in book && o in book && b.side.Bid? && o.side.Offer?
    requires b.price == RungPrice(Bid, mid, -delta, tick) && o.price == RungPrice(Offer, mid, delta, tick)
    ensures !Uncrossed(book)
  {
    hide RungPrice;
  }

  ghost predicate NeverCrosses(tick: Price) {
    forall m, x :: Sound(m) && Uncrossed(m.book) && Separated(x) && x.tick == tick ==> Uncrossed(Visited(m, x).book)
  }

  /**
   From an uncrossed book and strictly separated ladders, whatever a visit leaves resting is uncrossed, for
   any market and mid, exactly when the tick is no finer than the written prices.
   */
  lemma VisitsNeverCrossExactly(tick: Price)
    ensures NeverCrosses(tick) <==> tick >= 0.0000000001
  {
    hide Visited, Sound, Uncrossed, Separated;
    if tick * UNITS >= 1.0 {
      forall m, x | Sound(m) && Uncrossed(m.book) && Separated(x) && x.tick == tick ensures Uncrossed(Visited(m, x).book) {
        VisitKeepsUncrossed(m, x);
      }
    } else {
      var x := FineTickCrosses(tick);
      EmptyIsSound();
    }
  }

  lemma EmptyIsSound()
    ensures Sound(NEW_MARKET) && Uncrossed(NEW_MARKET.book)
  {
  }
}
