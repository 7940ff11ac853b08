/** One visit to a market: plan both sides, guard against crossing, execute, and stamp the anchors. */
module GridVisit {
  import opened Wrappers
  import opened GridPricing
  import opened GridOps
  import opened GridExecution
  import opened GridBook

  type Price = p: real | p > 0.0 witness 1.0

  datatype Funding = Funded | Short | Unknown

  /** Price each side was last placed at. */
  datatype Anchors = Anchors(bid: Option<Price>, offer: Option<Price>) {
    function On(side: Side): Option<Price> {
      if side.Bid? then bid else offer
    }
  }

  datatype Inputs = Inputs(
    price: Price, tick: Price, threshold: real, bid: Funding, offer: Funding,
    bidLevels: seq<Level>, offerLevels: seq<Level>)
  {
    function Funds(side: Side): Funding {
      if side.Bid? then bid else offer
    }

    function Levels(side: Side): seq<Level> {
      LevelsOn(bidLevels, offerLevels, side)
    }

    predicate Fundable(side: Side) {
      Funds(side) == Funded && |Levels(side)| > 0
    }
  }

  /** What the manager keeps for a market, and the market's resting orders; new orders are numbered from `next`. */
  datatype Market = Market(
    anchors: Anchors, restore: bool, lastShaped: Option<seq<Level>>, book: seq<Resting>, next: nat)

  // Planning

  predicate MovedPast(anchor: Option<Price>, price: Price, threshold: real) {
    anchor.Some? && Abs(price - anchor.value) / anchor.value * 100.0 >= threshold
  }

  predicate RungDiffers(a: Level, b: Level) {
    || (if a.quantity > 0.0 then Abs(b.quantity - a.quantity) / a.quantity > 0.005 else a.quantity != b.quantity)
    || Abs(a.deltaPercent - b.deltaPercent) > 0.01
  }

  predicate ShapeChanged(last: Option<seq<Level>>, levels: seq<Level>) {
    last.Some? && (|last.value| != |levels| || exists i :: 0 <= i < |levels| && RungDiffers(last.value[i], levels[i]))
  }

  predicate AnyPartial(book: seq<Resting>, side: Side) {
    exists o :: o in book && o.side == side && o.partial
  }

  predicate Triggered(m: Market, x: Inputs, side: Side) {
    || m.restore
    || MovedPast(m.anchors.On(side), x.price, x.threshold)
    || SideCount(m.book, side) != |x.Levels(side)|
    || AnyPartial(m.book, side)
    || (side.Offer? && ShapeChanged(m.lastShaped, x.offerLevels))
  }

  /** Unknown funding keeps; a fundable side is replaced on its own trigger; any other side loses whatever rests. */
  function PlanSide(m: Market, x: Inputs, side: Side): SideAction {
    if x.Funds(side) == Unknown then Keep
    else if x.Fundable(side) then if Triggered(m, x, side) then Replace else Keep
    else if SideCount(m.book, side) > 0 then Cancel
    else Keep
  }

  function PlanMarket(m: Market, x: Inputs): Plan {
    Plan(PlanSide(m, x, Bid), PlanSide(m, x, Offer))
  }

  function FinalPlan(m: Market, x: Inputs): Plan {
    Uncross(PlanMarket(m, x), x.bidLevels, x.offerLevels, x.price, x.tick, m.book, x.Fundable(Bid), x.Fundable(Offer))
  }

  /** Replaced sides take the price; a kept side with orders resting but no anchor adopts it. */
  function NextAnchor(anchor: Option<Price>, action: SideAction, count: nat, price: Price): Option<Price> {
    match action
    case Replace => Some(price)
    case Keep => if anchor.None? && count > 0 then Some(price) else anchor
    case Cancel => anchor
  }

  function NextAnchors(m: Market, plan: Plan, price: Price): Anchors {
    Anchors(NextAnchor(m.anchors.bid, plan.bid, SideCount(m.book, Bid), price),
            NextAnchor(m.anchors.offer, plan.offer, SideCount(m.book, Offer), price))
  }

  function PlannedOps(m: Market, x: Inputs): seq<GridOp> {
    Ops(x.bidLevels, x.offerLevels, x.price, x.tick, m.book, FinalPlan(m, x))
  }

  /** The market once `ops` all succeeded for `plan`. */
  function Carried(m: Market, plan: Plan, ops: seq<GridOp>, x: Inputs): Market {
    Market(NextAnchors(m, plan, x.price), false,
           if plan.offer.Replace? then Some(x.offerLevels) else m.lastShaped,
           Exec(ops, m.book, m.next), m.next + |Places(ops)|)
  }

  /** The market after a visit on which every operation succeeds. */
  function Visited(m: Market, x: Inputs): Market {
    if x.bid == Unknown && x.offer == Unknown then m
    else Carried(m, FinalPlan(m, x), PlannedOps(m, x), x)
  }

  ghost predicate Sound(m: Market) {
    Distinct(m.book) && Below(m.book, m.next)
  }

  // When a side is kept

  /** The price is still within the threshold of the one the side was placed at. */
  predicate PriceNear(anchor: Price, price: Price, threshold: real) {
    anchor * (100.0 - threshold) < 100.0 * price < anchor * (100.0 + threshold)
  }

  lemma MovedPastExactly(anchor: Price, price: Price, threshold: real)
    ensures MovedPast(Some(anchor), price, threshold) <==> !PriceNear(anchor, price, threshold)
  {
    var change := Abs(price - anchor);
    var ratio := change / anchor;
    assert ratio * anchor == change;
    assert MovedPast(Some(anchor), price, threshold) <==> ratio * 100.0 >= threshold;
    hide MovedPast;
    MoveOrder(anchor, price, threshold, ratio);
  }

  lemma MoveOrder(anchor: real, price: real, threshold: real, ratio: real)
    requires anchor > 0.0 && ratio * anchor == Abs(price - anchor)
    ensures ratio * 100.0 >= threshold <==> !(anchor * (100.0 - threshold) < 100.0 * price < anchor * (100.0 + threshold))
  {
    var bound := threshold * anchor;
    ScaledOrder(threshold, ratio * 100.0, anchor);
    assert ratio * 100.0 * anchor == 100.0 * Abs(price - anchor);
    assert anchor * (100.0 - threshold) == 100.0 * anchor - bound;
    assert anchor * (100.0 + threshold) == 100.0 * anchor + bound;
  }

  lemma ScaledOrder(a: real, b: real, f: real)
    requires f > 0.0
    ensures a <= b <==> a * f <= b * f
  {
    assert a < b ==> (b - a) * f > 0.0;
    assert b < a ==> (a - b) * f > 0.0;
  }

  /** Rung by rung, quantities within half a percent and deltas within a hundredth of a percent. */
  predicate ShapeNear(last: seq<Level>, levels: seq<Level>) {
    |last| == |levels| &&
    forall i :: 0 <= i < |levels| ==>
      && -0.01 <= last[i].deltaPercent - levels[i].deltaPercent <= 0.01
      && (if last[i].quantity > 0.0
          then 0.995 * last[i].quantity <= levels[i].quantity <= 1.005 * last[i].quantity
          else levels[i].quantity == last[i].quantity)
  }

  lemma RatioOrder(moved: real, q: real, ratio: real, limit: real)
    requires q > 0.0 && ratio * q == moved
    ensures ratio <= limit <==> moved <= limit * q
  {
    ScaledOrder(ratio, limit, q);
  }

  lemma RungDiffersExactly(a: Level, b: Level)
    ensures RungDiffers(a, b) <==>
              !(-0.01 <= a.deltaPercent - b.deltaPercent <= 0.01
                && (if a.quantity > 0.0 then 0.995 * a.quantity <= b.quantity <= 1.005 * a.quantity else b.quantity == a.quantity))
  {
    if a.quantity > 0.0 {
      var moved := Abs(b.quantity - a.quantity);
      var ratio := moved / a.quantity;
      assert ratio * a.quantity == moved;
      RatioOrder(moved, a.quantity, ratio, 0.005);
      assert moved <= 0.005 * a.quantity <==> 0.995 * a.quantity <= b.quantity <= 1.005 * a.quantity;
    }
  }

  lemma ShapeChangedExactly(last: seq<Level>, levels: seq<Level>)
    ensures ShapeChanged(Some(last), levels) <==> !ShapeNear(last, levels)
  {
    if |last| == |levels| {
      forall i | 0 <= i < |levels| ensures RungDiffers(last[i], levels[i]) <==>
        !(-0.01 <= last[i].deltaPercent - levels[i].deltaPercent <= 0.01
          && (if last[i].quantity > 0.0 then 0.995 * last[i].quantity <= levels[i].quantity <= 1.005 * last[i].quantity
              else levels[i].quantity == last[i].quantity))
      {
        RungDiffersExactly(last[i], levels[i]);
      }
      hide RungDiffers;
    }
  }

  /** A side needs no refresh: no restore pending, its price near, its orders as many as its rungs and unfilled, its shape as placed. */
  ghost predicate OnTarget(m: Market, x: Inputs, side: Side) {
    var levels := if side.Bid? then x.bidLevels else x.offerLevels;
    var anchor := if side.Bid? then m.anchors.bid else m.anchors.offer;
    && !m.restore
    && (anchor.Some? ==> PriceNear(anchor.value, x.price, x.threshold))
    && SideCount(m.book, side) == |levels|
    && (forall o :: o in m.book && o.side == side ==> !o.partial)
    && (side.Offer? && m.lastShaped.Some? ==> ShapeNear(m.lastShaped.value, levels))
  }

  /**
   Each side's plan: kept while its funding is unknown; a funded side with rungs is kept exactly while it is on target
   and replaced otherwise; any other side loses whatever rests on it.
   */
  lemma PlansExactly(m: Market, x: Inputs, side: Side)
    ensures var funding := if side.Bid? then x.bid else x.offer; var levels := if side.Bid? then x.bidLevels else x.offerLevels;
            var action := if side.Bid? then PlanMarket(m, x).bid else PlanMarket(m, x).offer;
            action == if funding == Unknown then Keep
                      else if funding == Funded && levels != [] then if OnTarget(m, x, side) then Keep else Replace
                      else if exists o :: o in m.book && o.side == side then Cancel
                      else Keep
  {
    var anchor := if side.Bid? then m.anchors.bid else m.anchors.offer;
    if anchor.Some? {
      MovedPastExactly(anchor.value, x.price, x.threshold);
    }
    if m.lastShaped.Some? {
      ShapeChangedExactly(m.lastShaped.value, x.offerLevels);
    }
    AnyOnSide(m.book, side);
    assert !MovedPast(None, x.price, x.threshold) && !ShapeChanged(None, x.offerLevels);
    hide MovedPast, ShapeChanged, PriceNear, ShapeNear, SideCount;
  }

  lemma AnyOnSide(book: seq<Resting>, side: Side)
    ensures SideCount(book, side) > 0 <==> exists o :: o in book && o.side == side
  {
    if SideCount(book, side) > 0 {
      assert OnSide(book, side)[0] in OnSide(book, side);
    }
    if o :| o in book && o.side == side {
      assert o in OnSide(book, side);
    }
  }

  /**
   The anchors a planning visit leaves: the price on a replaced side, and on a kept side with orders but no anchor; any
   other side's anchor stays. So a side with orders kept or replaced always has one.
   */
  lemma AnchorsAfter(m: Market, plan: Plan, price: Price, side: Side)
    ensures var was := if side.Bid? then m.anchors.bid else m.anchors.offer;
            var now := if side.Bid? then NextAnchors(m, plan, price).bid else NextAnchors(m, plan, price).offer;
            var action := if side.Bid? then plan.bid else plan.offer; var rests := exists o :: o in m.book && o.side == side;
            && (action == Replace ==> now == Some(price))
            && (action == Keep ==> now == if was.None? && rests then Some(price) else was)
            && (action == Cancel ==> now == was)
            && (action != Cancel && rests ==> now.Some?)
  {
    AnyOnSide(m.book, Bid);
    AnyOnSide(m.book, Offer);
    hide SideCount;
  }

  // What a visit leaves on each side

  lemma {:induction false} PlacesMembers(ops: seq<GridOp>, op: GridOp)
    requires op in ops && op.PlaceOp?
    ensures op in Places(ops)
  {
    if op != ops[0] {
      PlacesMembers(ops[1..], op);
    }
  }

  ghost predicate AtRung(x: Inputs, o: Resting) {
    exists i :: 0 <= i < |x.Levels(o.side)| && o.price == RungPrice(o.side, x.price, x.Levels(o.side)[i].deltaPercent, x.tick)
  }

  lemma PlacedAtRung(x: Inputs, book: seq<Resting>, plan: Plan, o: Resting)
    requires PlacedBy(Ops(x.bidLevels, x.offerLevels, x.price, x.tick, book, plan), o.side, o.price)
    ensures plan.On(o.side) == Replace && AtRung(x, o)
  {
    var rungs := PlacesExactlyTheRungs(x.bidLevels, x.offerLevels, x.price, x.tick, book, plan);
    var i := PlacedRung(Ops(x.bidLevels, x.offerLevels, x.price, x.tick, book, plan), rungs, o.side, o.price);
    var j := SameMultiset(rungs, NewRungs(x.bidLevels, x.offerLevels, x.price, x.tick, plan), i);
    RungAtLevel(x, plan, j, o);
  }

  lemma PlacedRung(ops: seq<GridOp>, rungs: seq<Rung>, side: Side, price: real) returns (i: nat)
    requires PlacedBy(ops, side, price) && Places(ops) == AsPlaces(rungs)
    ensures i < |rungs| && rungs[i].side == side && rungs[i].price == price
  {
    var op :| op in ops && op.PlaceOp? && op.side == side && op.price == price;
    PlacesMembers(ops, op);
    i :| 0 <= i < |AsPlaces(rungs)| && AsPlaces(rungs)[i] == op;
  }

  lemma SameMultiset(a: seq<Rung>, b: seq<Rung>, i: nat) returns (j: nat)
    requires multiset(a) == multiset(b) && i < |a|
    ensures j < |b| && b[j] == a[i]
  {
    assert a[i] in multiset(b);
    j :| 0 <= j < |b| && b[j] == a[i];
  }

  lemma RungAtLevel(x: Inputs, plan: Plan, j: nat, o: Resting)
    requires var all := NewRungs(x.bidLevels, x.offerLevels, x.price, x.tick, plan);
             j < |all| && all[j].side == o.side && all[j].price == o.price
    ensures plan.On(o.side) == Replace && AtRung(x, o)
  {
    var bids := if plan.bid.Replace? then |x.bidLevels| else 0;
    var i := if j < bids then j else j - bids;
    assert 0 <= i < |x.Levels(o.side)| && o.price == RungPrice(o.side, x.price, x.Levels(o.side)[i].deltaPercent, x.tick);
  }

  lemma UnkeptCancelled(m: Market, x: Inputs, o: Resting)
    requires Sound(m) && o in m.book
    ensures CancelCount(PlannedOps(m, x), o.id) == 0 <==> FinalPlan(m, x).On(o.side) == Keep
  {
    CancelsExactlyUnkeptSides(x.bidLevels, x.offerLevels, x.price, x.tick, m.book, FinalPlan(m, x), o.id);
  }

  lemma FinalSides(m: Market, x: Inputs, o: Resting)
    requires Sound(m)
    ensures var plan := FinalPlan(m, x); var after := Exec(PlannedOps(m, x), m.book, m.next);
            && (plan.On(o.side).Keep? ==> (o in after <==> o in m.book))
            && (plan.On(o.side).Replace? && o in after ==> !o.partial && AtRung(x, o))
            && (plan.On(o.side).Cancel? ==> o !in after)
  {
    var plan := FinalPlan(m, x);
    var ops := PlannedOps(m, x);
    forall id | id >= m.next ensures CancelCount(ops, id) == 0 {
      CancelsExactlyUnkeptSides(x.bidLevels, x.offerLevels, x.price, x.tick, m.book, plan, id);
    }
    ExecMembers(ops, m.book, m.next);
    if o in m.book {
      UnkeptCancelled(m, x, o);
    }
    if PlacedBy(ops, o.side, o.price) {
      PlacedAtRung(x, m.book, plan, o);
    }
  }

  lemma NoFutureCancel(m: Market, x: Inputs, id: nat)
    requires Sound(m) && id >= m.next
    ensures CancelCount(PlannedOps(m, x), id) == 0
  {
    CancelsExactlyUnkeptSides(x.bidLevels, x.offerLevels, x.price, x.tick, m.book, FinalPlan(m, x), id);
  }

  lemma VisitKeepsDistinct(m: Market, x: Inputs)
    requires Sound(m)
    ensures Distinct(Exec(PlannedOps(m, x), m.book, m.next))
  {
    hide Ops, FinalPlan, Exec;
    var ops := PlannedOps(m, x);
    PrefixCancelsOnce(x.bidLevels, x.offerLevels, x.price, x.tick, m.book, FinalPlan(m, x), |ops|);
    assert ops[..|ops|] == ops;
    ExecCounts(ops, m.book, m.next, Bid);
  }

  lemma VisitKeepsBelow(m: Market, x: Inputs)
    requires Sound(m)
    ensures Below(Exec(PlannedOps(m, x), m.book, m.next), m.next + |Places(PlannedOps(m, x))|)
  {
    hide PlannedOps, Exec, Places;
    forall id | id >= m.next ensures CancelCount(PlannedOps(m, x), id) == 0 {
      NoFutureCancel(m, x, id);
    }
    ExecMembers(PlannedOps(m, x), m.book, m.next);
  }

  lemma VisitKeepsSound(m: Market, x: Inputs)
    requires Sound(m)
    ensures Sound(Visited(m, x))
  {
    hide PlannedOps, Exec, Places, FinalPlan, NextAnchors, Distinct, Below;
    VisitKeepsDistinct(m, x);
    VisitKeepsBelow(m, x);
  }

  lemma CountAfter(m: Market, x: Inputs, side: Side)
    requires Sound(m)
    ensures SideCount(Exec(PlannedOps(m, x), m.book, m.next), side)
            == Target(x.bidLevels, x.offerLevels, m.book, FinalPlan(m, x), side)
  {
    hide Ops, FinalPlan, SideCount, Target, Exec;
    var ops := PlannedOps(m, x);
    CutShortWithinBounds(x.bidLevels, x.offerLevels, x.price, x.tick, m.book, FinalPlan(m, x), m.next, |ops|, side);
    assert ops[..|ops|] == ops;
  }

  lemma PartialsAfter(m: Market, x: Inputs, side: Side)
    requires Sound(m)
    ensures var action := FinalPlan(m, x).On(side); var after := Exec(PlannedOps(m, x), m.book, m.next);
            && (action.Keep? ==> (AnyPartial(after, side) <==> AnyPartial(m.book, side)))
            && (action.Replace? ==> !AnyPartial(after, side))
  {
    hide PlannedOps, FinalPlan, AtRung, Sound, Exec;
    var action := FinalPlan(m, x).On(side);
    var after := Exec(PlannedOps(m, x), m.book, m.next);
    forall o: Resting | o.side == side && o.partial
      ensures (action.Keep? ==> (o in after <==> o in m.book)) && (action.Replace? ==> o !in after)
    {
      FinalSides(m, x, o);
    }
  }

  /** The side's orders and marks right after a visit. */
  lemma SideAfter(m: Market, x: Inputs, side: Side)
    requires Sound(m) && !(x.bid == Unknown && x.offer == Unknown)
    ensures var plan := FinalPlan(m, x); var m' := Visited(m, x);
            && SideCount(m'.book, side) == Target(x.bidLevels, x.offerLevels, m.book, plan, side)
            && (plan.On(side).Keep? ==> (AnyPartial(m'.book, side) <==> AnyPartial(m.book, side)))
            && (plan.On(side).Replace? ==> !AnyPartial(m'.book, side))
            && m'.anchors.On(side) == NextAnchor(m.anchors.On(side), plan.On(side), SideCount(m.book, side), x.price)
  {
    hide PlannedOps, Exec, FinalPlan, AnyPartial, SideCount, Target;
    CountAfter(m, x, side);
    PartialsAfter(m, x, side);
  }

  lemma PlanByFunding(m: Market, x: Inputs, side: Side)
    ensures var action := FinalPlan(m, x).On(side);
            && (action.Replace? ==> x.Fundable(side))
            && (action.Cancel? ==> !x.Fundable(side))
            && (action.Keep? ==> PlanSide(m, x, side) == Keep)
  {
  }

  lemma PriceStays(price: Price, threshold: real)
    ensures MovedPast(Some(price), price, threshold) <==> threshold <= 0.0
  {
  }

  lemma SameShape(levels: seq<Level>)
    ensures !ShapeChanged(Some(levels), levels)
  {
  }

  /** What a visit leaves of a side, in the terms the next plan looks at. */
  ghost predicate SideLeft(m: Market, x: Inputs, side: Side, action: SideAction, m': Market) {
    && !m'.restore
    && SideCount(m'.book, side) == Target(x.bidLevels, x.offerLevels, m.book, Plan(action, action), side)
    && (action.Keep? ==> PlanSide(m, x, side) == Keep && (AnyPartial(m'.book, side) <==> AnyPartial(m.book, side)))
    && (action.Replace? ==> x.Fundable(side) && !AnyPartial(m'.book, side))
    && (action.Cancel? ==> !x.Fundable(side))
    && m'.anchors.On(side) == NextAnchor(m.anchors.On(side), action, SideCount(m.book, side), x.price)
    && (side.Offer? ==> m'.lastShaped == if action.Replace? then Some(x.offerLevels) else m.lastShaped)
  }

  lemma VisitLeaves(m: Market, x: Inputs, side: Side)
    requires Sound(m) && !(x.bid == Unknown && x.offer == Unknown)
    ensures SideLeft(m, x, side, FinalPlan(m, x).On(side), Visited(m, x))
  {
    SideAfter(m, x, side);
    PlanByFunding(m, x, side);
  }

  lemma SideSettles(m: Market, x: Inputs, side: Side, action: SideAction, m': Market)
    requires SideLeft(m, x, side, action, m')
    ensures PlanSide(m', x, side) == Keep <==> x.threshold > 0.0 || !x.Fundable(side)
    ensures PlanSide(m', x, side) == Keep ==>
              NextAnchor(m'.anchors.On(side), Keep, SideCount(m'.book, side), x.price) == m'.anchors.On(side)
  {
    PriceStays(x.price, x.threshold);
    SameShape(x.offerLevels);
  }

  /**
   A refresh reaches a fixpoint. After a visit whose operations all succeed, with price, funding, ladders and
   fills unchanged, the next visit keeps both sides and changes nothing at all, for every book and every
   funding, exactly when the threshold is positive or no side is fundable.
   */
  lemma VisitReachesFixpoint(m: Market, x: Inputs)
    requires Sound(m)
    ensures var settled := x.threshold > 0.0 || (!x.Fundable(Bid) && !x.Fundable(Offer));
            && (PlanMarket(Visited(m, x), x) == Plan(Keep, Keep) <==> settled)
            && (settled ==> Visited(Visited(m, x), x) == Visited(m, x))
  {
    if !(x.bid == Unknown && x.offer == Unknown) {
      var m' := Visited(m, x);
      var plan := FinalPlan(m, x);
      VisitLeaves(m, x, Bid);
      VisitLeaves(m, x, Offer);
      SideSettles(m, x, Bid, plan.bid, m');
      SideSettles(m, x, Offer, plan.offer, m');
      if PlanMarket(m', x) == Plan(Keep, Keep) {
        KeepBothDoesNothing(m', x);
      }
    }
  }

  lemma KeepBothDoesNothing(m: Market, x: Inputs)
    requires PlanMarket(m, x) == Plan(Keep, Keep)
    ensures FinalPlan(m, x) == Plan(Keep, Keep) && PlannedOps(m, x) == []
    ensures Visited(m, x).book == m.book && Visited(m, x).next == m.next && Visited(m, x).lastShaped == m.lastShaped
  {
    assert Cancels([]) == [];
    assert NewRungs(x.bidLevels, x.offerLevels, x.price, x.tick, Plan(Keep, Keep)) == [];
  }
}
