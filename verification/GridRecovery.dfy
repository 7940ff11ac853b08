/**
 A market over runs of visits whose calls fail as they like, with trades and price outages in between: failed
 cancels may leave stale orders, and crossing ones, but never one the next visit does not cancel again.
 */
module GridRecovery {
  import opened Wrappers
  import opened GridPricing
  import opened GridOps
  import opened GridExecution
  import opened GridBook
  import opened GridVisit
  import opened GridCrossing
  import opened GridManager

  // One visit

  lemma {:induction false} ExecSurvivors(ops: seq<GridOp>, book: seq<Resting>, next: nat, o: Resting)
    requires Below(book, next) && o in Exec(ops, book, next) && o.id < next
    ensures o in book && CancelCount(ops, o.id) == 0
    decreases |ops|
  {
    if ops != [] {
      match ops[0] {
        case CancelOp(id, _) =>
          WithoutMembers(book, id);
          ExecSurvivors(ops[1..], Without(book, id), next, o);
        case PlaceOp(s, p, _) =>
          ExecSurvivors(ops[1..], book + [Resting(next, s, p, false)], next + 1, o);
      }
    }
  }

  /** An order older than the visit was listed to it, and stays on a side not kept only with its failed cancel remembered. */
  lemma OldOrdersAreRemembered(t: Tended, x: Inputs, retry: nat -> Outcome, answer: nat -> Outcome, o: Resting)
    requires Sound(t.market) && !(x.bid == Unknown && x.offer == Unknown)
    requires o in Attempted(t, x, retry, answer).market.book && o.id < t.market.next
    ensures o in Seen(t, retry).book && o in t.market.book
    ensures FinalPlan(Seen(t, retry), x).On(o.side).Keep? || o.id in Attempted(t, x, retry, answer).pending
  {
    hide PlannedOps, Effective, CancelCount, FinalPlan, Exec, Sound, FailedCancels, ServerBook, Below;
    RealIsSeen(t, retry);
    var seen := Seen(t, retry);
    var ops := PlannedOps(seen, x);
    ExecSurvivors(Effective(ops, answer), ServerBook(t, retry), t.market.next, o);
    UnkeptCancelled(seen, x, o);
    EffectiveCancels(ops, answer, o.id);
    hide Seen;
  }

  /** What was remembered and is still listed stays remembered. */
  lemma MemoryLasts(t: Tended, x: Inputs, retry: nat -> Outcome, answer: nat -> Outcome, o: Resting)
    requires o in t.market.book && o.id in t.pending && o in Seen(t, retry).book
    ensures o.id in Attempted(t, x, retry, answer).pending
  {
    hide PlannedOps, Effective, FinalPlan, Exec, FailedCancels, WithoutAll;
    WithoutAllMembers(t.market.book, Cancelled(t, retry));
  }

  ghost predicate CrossingsRemembered(t: Tended) {
    forall b, o :: b in t.market.book && o in t.market.book && b.side.Bid? && o.side.Offer? ==>
      b.price < o.price || b.id in t.pending || o.id in t.pending
  }

  predicate Placeable(x: Inputs) {
    x.tick >= 0.0000000001
  }

  /** An order not remembered after a visit: at a new rung, or kept and listed before. */
  lemma Unremembered(t: Tended, x: Inputs, retry: nat -> Outcome, answer: nat -> Outcome, o: Resting)
    requires Sound(t.market) && !(x.bid == Unknown && x.offer == Unknown)
    requires o in Attempted(t, x, retry, answer).market.book && o.id !in Attempted(t, x, retry, answer).pending
    ensures var action := FinalPlan(Seen(t, retry), x).On(o.side);
            || (action.Replace? && AtRung(x, o))
            || (action.Keep? && o in Seen(t, retry).book && o in t.market.book && o.id !in t.pending)
  {
    FailuresAreRemembered(t, x, retry, answer, o);
    LeftOrPlaced(t, x, retry, answer, o);
    hide Attempted, FinalPlan, Seen, AtRung;
    if o in Seen(t, retry).book && o in t.market.book && o.id in t.pending {
      MemoryLasts(t, x, retry, answer, o);
    }
  }

  /** With a price known, funding is known for both sides or for neither. */
  predicate FundingAsOne(x: Inputs) {
    x.bid == Unknown <==> x.offer == Unknown
  }

  /** A forced visit keeps no side on which anything rests. */
  lemma ForcedKeepsNothing(m: Market, x: Inputs, o: Resting)
    requires m.restore && FundingAsOne(x) && x.bid != Unknown && o in m.book
    ensures !FinalPlan(m, x).On(o.side).Keep?
  {
    PlanByFunding(m, x, o.side);
    assert o in OnSide(m.book, o.side);
    hide FinalPlan;
  }

  /**
   Whatever fails, a bid and an offer left across each other have a failed cancel remembered between them; a
   forced visit makes it so whatever was remembered before.
   */
  lemma VisitRemembersCrossings(t: Tended, x: Inputs, retry: nat -> Outcome, answer: nat -> Outcome)
    requires Sound(t.market) && Separated(x) && Placeable(x) && !(x.bid == Unknown && x.offer == Unknown)
    requires CrossingsRemembered(t) || (t.market.restore && FundingAsOne(x))
    ensures CrossingsRemembered(Attempted(t, x, retry, answer))
  {
    var t' := Attempted(t, x, retry, answer);
    SeenKeepsRest(t, retry);
    {
      hide Attempted, FinalPlan, Seen, Sound, RungPrice;
      var plan := FinalPlan(Seen(t, retry), x);
      forall b, o | b in t'.market.book && o in t'.market.book && b.side.Bid? && o.side.Offer?
        && b.id !in t'.pending && o.id !in t'.pending ensures b.price < o.price
      {
        Unremembered(t, x, retry, answer, b);
        Unremembered(t, x, retry, answer, o);
        if t.market.restore && FundingAsOne(x) {
          forall kept: Resting | kept in Seen(t, retry).book ensures !plan.On(kept.side).Keep? {
            ForcedKeepsNothing(Seen(t, retry), x, kept);
          }
        }
        if plan == Plan(Replace, Replace) {
          RungsOnBothSides(x, b, o);
        } else if plan != Plan(Keep, Keep) {
          RungAgainstResting(Seen(t, retry), x, b, o);
        }
      }
    }
  }

  lemma RungsOnBothSides(x: Inputs, b: Resting, o: Resting)
    requires Separated(x) && Placeable(x) && b.side.Bid? && o.side.Offer? && AtRung(x, b) && AtRung(x, o)
    ensures b.price < o.price
  {
    var i :| 0 <= i < |x.bidLevels| && b.price == RungPrice(Bid, x.price, x.bidLevels[i].deltaPercent, x.tick);
    var j :| 0 <= j < |x.offerLevels| && o.price == RungPrice(Offer, x.price, x.offerLevels[j].deltaPercent, x.tick);
    RungsApart(x.price, x.bidLevels[i].deltaPercent, x.offerLevels[j].deltaPercent, x.tick);
    hide RungPrice;
  }

  // Runs

  /** `TearDown` and `Resume` are the ends of a price outage; a teardown ignores each cancel that fails. */
  datatype Event =
    | Visit(x: Inputs, retry: nat -> Outcome, answer: nat -> Outcome)
    | Trades(left: seq<Resting>)
    | TearDown(left: seq<Resting>)
    | Resume

  /** A side's history: orders are newer than its last replacement or withdrawal from number `from` on; `placed` is what the replacement was for. */
  datatype SideLog = SideLog(from: nat, placed: Option<Inputs>)

  /** A market, whether it is without a price, and the history of its sides. */
  datatype Run = Run(t: Tended, priceless: bool, bids: SideLog, offers: SideLog) {
    function Log(side: Side): SideLog {
      if side.Bid? then bids else offers
    }

    function From(side: Side): nat {
      Log(side).from
    }
  }

  /** Trades and cancels fill or take orders away; they add none and move none. */
  ghost predicate LeftOf(book: seq<Resting>, left: seq<Resting>) {
    Distinct(left) &&
    forall o :: o in left ==> exists was :: was in book && was.id == o.id && was.side == o.side && was.price == o.price
  }

  predicate Plans(e: Event) {
    e.Visit? && !(e.x.bid == Unknown && e.x.offer == Unknown)
  }

  /** What a visit does to a side's history. */
  function Logged(r: Run, e: Event, side: Side): SideLog {
    if !Plans(e) then r.Log(side)
    else
      match FinalPlan(Seen(r.t, e.retry), e.x).On(side)
      case Keep => r.Log(side)
      case Replace => SideLog(r.t.market.next, Some(e.x))
      case Cancel => SideLog(r.t.market.next, None)
  }

  /** A teardown forgets the anchors and the failed cancels; a resume forces the next plan. */
  function Next(r: Run, e: Event): Run {
    Run(match e
        case Visit(x, retry, answer) => Attempted(r.t, x, retry, answer)
        case Trades(left) => r.t.(market := r.t.market.(book := left))
        case TearDown(left) => Tended(r.t.market.(book := left, anchors := Anchors(None, None)), {})
        case Resume => r.t.(market := r.t.market.(restore := true)),
        if e.TearDown? then true else if e.Resume? then false else r.priceless,
        Logged(r, e, Bid), Logged(r, e, Offer))
  }

  function After(m: Market, history: seq<Event>): Run {
    if history == [] then Run(Tended(m, {}), false, SideLog(0, None), SideLog(0, None))
    else Next(After(m, history[..|history| - 1]), history[|history| - 1])
  }

  ghost predicate Legal(r: Run, e: Event) {
    match e
    case Visit(x, _, _) => !r.priceless && FundingAsOne(x)
    case Trades(left) => LeftOf(r.t.market.book, left)
    case TearDown(left) => LeftOf(r.t.market.book, left)
    case Resume => r.priceless
  }

  ghost predicate LegalHistory(m: Market, history: seq<Event>) {
    history == [] ||
    var n := |history| - 1;
    LegalHistory(m, history[..n]) && Legal(After(m, history[..n]), history[n])
  }

  /** No visit plans before one that is forced to refresh both sides. */
  predicate RefreshDue(r: Run) {
    r.priceless || r.t.market.restore
  }

  /** Every order of the side older than its last replacement or withdrawal has its failed cancel remembered. */
  ghost predicate StaleRemembered(r: Run, side: Side) {
    forall o :: o in r.t.market.book && o.side == side && o.id < r.From(side) ==> o.id in r.t.pending
  }

  ghost predicate Kept(r: Run) {
    && Sound(r.t.market) && r.bids.from <= r.t.market.next && r.offers.from <= r.t.market.next
    && (RefreshDue(r) || (StaleRemembered(r, Bid) && StaleRemembered(r, Offer)))
  }

  lemma VisitKeepsStaleRemembered(r: Run, x: Inputs, retry: nat -> Outcome, answer: nat -> Outcome, side: Side)
    requires Sound(r.t.market) && r.From(side) <= r.t.market.next && Plans(Visit(x, retry, answer))
    requires StaleRemembered(r, side) || (r.t.market.restore && FundingAsOne(x))
    ensures StaleRemembered(Next(r, Visit(x, retry, answer)), side)
  {
    var r' := Next(r, Visit(x, retry, answer));
    SeenKeepsRest(r.t, retry);
    hide Attempted, FinalPlan, Seen, Sound;
    forall o | o in r'.t.market.book && o.side == side && o.id < r'.From(side) ensures o.id in r'.t.pending {
      OldOrdersAreRemembered(r.t, x, retry, answer, o);
      if r.t.market.restore && FundingAsOne(x) {
        ForcedKeepsNothing(Seen(r.t, retry), x, o);
      } else if FinalPlan(Seen(r.t, retry), x).On(side).Keep? {
        MemoryLasts(r.t, x, retry, answer, o);
      }
    }
  }

  lemma NextNumberGrows(t: Tended, x: Inputs, retry: nat -> Outcome, answer: nat -> Outcome)
    ensures t.market.next <= Attempted(t, x, retry, answer).market.next
  {
    hide PlannedOps, Effective, FinalPlan, Exec, FailedCancels, Places, Seen, ServerBook;
  }

  lemma ShrinkKeepsSound(m: Market, left: seq<Resting>)
    requires Sound(m) && LeftOf(m.book, left)
    ensures Sound(m.(book := left)) && Sound(m.(book := left, anchors := Anchors(None, None)))
  {
  }

  lemma TradesKeep(r: Run, left: seq<Resting>)
    requires LeftOf(r.t.market.book, left)
    ensures forall side :: StaleRemembered(r, side) ==> StaleRemembered(Next(r, Trades(left)), side)
    ensures CrossingsRemembered(r.t) ==> CrossingsRemembered(Next(r, Trades(left)).t)
  {
  }

  lemma VisitKeeps(r: Run, x: Inputs, retry: nat -> Outcome, answer: nat -> Outcome)
    requires Kept(r) && Legal(r, Visit(x, retry, answer))
    ensures Kept(Next(r, Visit(x, retry, answer)))
    ensures Plans(Visit(x, retry, answer)) ==> !RefreshDue(Next(r, Visit(x, retry, answer)))
  {
    AttemptKeepsSound(r.t, x, retry, answer);
    NextNumberGrows(r.t, x, retry, answer);
    if Plans(Visit(x, retry, answer)) {
      hide StaleRemembered, Sound, FinalPlan, PlannedOps;
      VisitKeepsStaleRemembered(r, x, retry, answer, Bid);
      VisitKeepsStaleRemembered(r, x, retry, answer, Offer);
    }
  }

  lemma StepKeeps(r: Run, e: Event)
    requires Kept(r) && Legal(r, e)
    ensures Kept(Next(r, e))
  {
    match e {
      case Visit(x, retry, answer) => VisitKeeps(r, x, retry, answer);
      case Trades(left) =>
        ShrinkKeepsSound(r.t.market, left);
        TradesKeep(r, left);
        hide StaleRemembered, Sound;
      case TearDown(left) => ShrinkKeepsSound(r.t.market, left);
      case Resume =>
    }
  }

  /**
   Over any run, with inputs changing from visit to visit, any call failing and the price coming and going, every
   order older than the last replacement or withdrawal of its side has its failed cancel remembered, or the next plan is a
   forced one.
   */
  lemma {:induction false} StaleOrdersAreRemembered(m: Market, history: seq<Event>)
    requires Sound(m) && LegalHistory(m, history)
    ensures Kept(After(m, history))
  {
    if history != [] {
      var n := |history| - 1;
      StaleOrdersAreRemembered(m, history[..n]);
      hide Kept, Next, Legal;
      StepKeeps(After(m, history[..n]), history[n]);
    }
  }

  ghost predicate AlwaysPlaceable(history: seq<Event>) {
    forall i :: 0 <= i < |history| && history[i].Visit? ==> Separated(history[i].x) && Placeable(history[i].x)
  }

  lemma StepRemembersCrossings(r: Run, e: Event)
    requires Kept(r) && Legal(r, e) && (e.Visit? ==> Separated(e.x) && Placeable(e.x))
    requires RefreshDue(r) || CrossingsRemembered(r.t)
    ensures RefreshDue(Next(r, e)) || CrossingsRemembered(Next(r, e).t)
  {
    match e {
      case Visit(x, retry, answer) =>
        if Plans(e) {
          hide CrossingsRemembered, Sound, Separated, FinalPlan, PlannedOps;
          VisitRemembersCrossings(r.t, x, retry, answer);
        }
      case Trades(left) => TradesKeep(r, left);
      case TearDown(_) =>
      case Resume =>
    }
  }

  /**
   Over any such run from an uncrossed market, with separated ladders and ticks no finer than the written prices,
   orders rest across each other only while one of them has its failed cancel remembered or the next plan is a
   forced one.
   */
  lemma {:induction false} CrossedOnlyWhileRemembered(m: Market, history: seq<Event>)
    requires Sound(m) && Uncrossed(m.book) && LegalHistory(m, history) && AlwaysPlaceable(history)
    ensures RefreshDue(After(m, history)) || CrossingsRemembered(After(m, history).t)
  {
    if history != [] {
      var n := |history| - 1;
      CrossedOnlyWhileRemembered(m, history[..n]);
      StaleOrdersAreRemembered(m, history[..n]);
      assert history[n].Visit? ==> Separated(history[n].x) && Placeable(history[n].x);
      hide Kept, CrossingsRemembered, Separated, Placeable, Legal, Next, RefreshDue;
      StepRemembersCrossings(After(m, history[..n]), history[n]);
    }
  }

  // One clean visit after any run

  /** A side as a clean visit leaves it: its rungs' number of orders, all since its last replacement and none part-filled, or none. */
  ghost predicate Mended(r: Run, x: Inputs, side: Side) {
    && SideCount(r.t.market.book, side) == (if x.Fundable(side) then |x.Levels(side)| else 0)
    && (x.Fundable(side) ==> !AnyPartial(r.t.market.book, side))
    && forall o :: o in r.t.market.book && o.side == side ==> o.id >= r.From(side)
  }

  lemma VisitFillsSide(m: Market, x: Inputs, side: Side)
    requires Sound(m) && x.Funds(side) != Unknown
    ensures SideCount(Visited(m, x).book, side) == if x.Fundable(side) then |x.Levels(side)| else 0
    ensures x.Fundable(side) ==> !AnyPartial(Visited(m, x).book, side)
  {
    PlanByFunding(m, x, side);
    SideAfter(m, x, side);
    assert FinalPlan(m, x).On(side).Keep? && x.Fundable(side) ==> SideCount(m.book, side) == |x.Levels(side)| && !AnyPartial(m.book, side);
    hide FinalPlan, Visited, SideCount, AnyPartial;
  }

  /**
   After any run, one visit whose calls succeed mends both sides and remembers nothing; with a positive threshold
   the visit after it has nothing to do.
   */
  lemma CleanVisitMends(m: Market, history: seq<Event>, x: Inputs)
    requires Sound(m) && LegalHistory(m, history)
    requires var e := Visit(x, ALL_SUCCEED, ALL_SUCCEED); Legal(After(m, history), e) && Plans(e)
    ensures var r := Next(After(m, history), Visit(x, ALL_SUCCEED, ALL_SUCCEED));
            && Mended(r, x, Bid) && Mended(r, x, Offer) && r.t.pending == {}
            && (x.threshold > 0.0 ==> PlanMarket(r.t.market, x) == Plan(Keep, Keep))
  {
    var r := After(m, history);
    StaleOrdersAreRemembered(m, history);
    VisitKeeps(r, x, ALL_SUCCEED, ALL_SUCCEED);
    RealIsSeen(r.t, ALL_SUCCEED);
    hide After, LegalHistory, Seen, Attempted, Visited, Sound, PlanMarket, SideCount, AnyPartial, FinalPlan;
    SucceededVisit(r.t, x);
    VisitFillsSide(Seen(r.t, ALL_SUCCEED), x, Bid);
    VisitFillsSide(Seen(r.t, ALL_SUCCEED), x, Offer);
    VisitReachesFixpoint(Seen(r.t, ALL_SUCCEED), x);
  }

  /** And, with separated ladders and ticks no finer than the written prices throughout, it leaves the market uncrossed. */
  lemma CleanVisitUncrosses(m: Market, history: seq<Event>, x: Inputs)
    requires Sound(m) && Uncrossed(m.book) && LegalHistory(m, history) && AlwaysPlaceable(history)
    requires Separated(x) && Placeable(x)
    requires var e := Visit(x, ALL_SUCCEED, ALL_SUCCEED); Legal(After(m, history), e) && Plans(e)
    ensures Uncrossed(Next(After(m, history), Visit(x, ALL_SUCCEED, ALL_SUCCEED)).t.market.book)
  {
    var r := After(m, history);
    CrossedOnlyWhileRemembered(m, history);
    StaleOrdersAreRemembered(m, history);
    hide After, LegalHistory, Seen, Visited, Sound, Separated;
    VisitRemembersCrossings(r.t, x, ALL_SUCCEED, ALL_SUCCEED);
    SucceededVisit(r.t, x);
    hide Attempted;
  }

  // Where the quotes stand

  /** Every order since the side's last replacement that this run placed, from number `first` on, stands at a rung of it. */
  ghost predicate Quoted(r: Run, side: Side, first: nat) {
    forall o :: o in r.t.market.book && o.side == side && o.id >= r.From(side) && o.id >= first ==>
      r.Log(side).placed.Some? && AtRung(r.Log(side).placed.value, o)
  }

  ghost predicate NoneSince(r: Run, side: Side) {
    forall o :: o in r.t.market.book && o.side == side ==> o.id < r.From(side)
  }

  /** The side's anchor is the price of its last replacement, while orders of it rest and no refresh is due. */
  ghost predicate AnchoredAsPlaced(r: Run, side: Side) {
    r.Log(side).placed.Some? ==>
      RefreshDue(r) || NoneSince(r, side) || r.t.market.anchors.On(side) == Some(r.Log(side).placed.value.price)
  }

  ghost predicate Standing(r: Run, first: nat) {
    && first <= r.t.market.next
    && forall side :: Quoted(r, side, first) && AnchoredAsPlaced(r, side)
  }

  /** What is left on a side by a planning visit: only what was listed to it if the side was kept, only orders numbered before it or rungs of it otherwise. */
  lemma LeftBySide(r: Run, x: Inputs, retry: nat -> Outcome, answer: nat -> Outcome, o: Resting)
    requires Sound(r.t.market) && Plans(Visit(x, retry, answer))
    requires o in Attempted(r.t, x, retry, answer).market.book
    ensures var action := FinalPlan(Seen(r.t, retry), x).On(o.side);
            && (action.Keep? ==> o in Seen(r.t, retry).book && o in r.t.market.book)
            && (!action.Keep? && o.id >= r.t.market.next ==> action.Replace? && AtRung(x, o))
  {
    LeftOrPlaced(r.t, x, retry, answer, o);
    RealIsSeen(r.t, retry);
    SeenKeepsRest(r.t, retry);
    assert o in r.t.market.book ==> o.id < r.t.market.next;
    hide Attempted, FinalPlan, Seen, AtRung, Distinct;
  }

  lemma VisitKeepsQuoted(r: Run, x: Inputs, retry: nat -> Outcome, answer: nat -> Outcome, side: Side, first: nat)
    requires Sound(r.t.market) && Plans(Visit(x, retry, answer)) && Quoted(r, side, first)
    ensures Quoted(Next(r, Visit(x, retry, answer)), side, first)
  {
    var r' := Next(r, Visit(x, retry, answer));
    hide Attempted, FinalPlan, Seen, AtRung, Sound;
    forall o | o in r'.t.market.book && o.side == side && o.id >= r'.From(side) && o.id >= first
      ensures r'.Log(side).placed.Some? && AtRung(r'.Log(side).placed.value, o)
    {
      LeftBySide(r, x, retry, answer, o);
    }
  }

  lemma AnchorAfterVisit(t: Tended, x: Inputs, retry: nat -> Outcome, answer: nat -> Outcome, side: Side)
    requires Plans(Visit(x, retry, answer))
    ensures var action := FinalPlan(Seen(t, retry), x).On(side); var anchor := Attempted(t, x, retry, answer).market.anchors.On(side);
            && (action.Replace? ==> anchor == Some(x.price))
            && (action.Keep? && t.market.anchors.On(side).Some? ==> anchor == t.market.anchors.On(side))
  {
    SeenKeepsRest(t, retry);
    AnchorsAfter(Seen(t, retry), FinalPlan(Seen(t, retry), x), x.price, side);
    hide FinalPlan, Seen, PlannedOps, Effective, Exec, NextAnchors, OfferPlaced, FailedCancels, ServerBook, SideCount;
  }

  lemma VisitKeepsAnchored(r: Run, x: Inputs, retry: nat -> Outcome, answer: nat -> Outcome, side: Side)
    requires Kept(r) && Legal(r, Visit(x, retry, answer)) && Plans(Visit(x, retry, answer)) && AnchoredAsPlaced(r, side)
    ensures AnchoredAsPlaced(Next(r, Visit(x, retry, answer)), side)
  {
    var r' := Next(r, Visit(x, retry, answer));
    AnchorAfterVisit(r.t, x, retry, answer, side);
    SeenKeepsRest(r.t, retry);
    hide Attempted, FinalPlan, Seen, Sound, StaleRemembered;
    if FinalPlan(Seen(r.t, retry), x).On(side).Keep? && (r.t.market.restore || NoneSince(r, side)) {
      forall o | o in r'.t.market.book && o.side == side ensures o.id < r'.From(side) {
        LeftBySide(r, x, retry, answer, o);
        if r.t.market.restore {
          ForcedKeepsNothing(Seen(r.t, retry), x, o);
        }
      }
    }
  }

  lemma ShrinkKeepsStanding(r: Run, e: Event, side: Side, first: nat)
    requires (e.Trades? || e.TearDown?) && LeftOf(r.t.market.book, e.left)
    requires Quoted(r, side, first) && AnchoredAsPlaced(r, side)
    ensures Quoted(Next(r, e), side, first) && AnchoredAsPlaced(Next(r, e), side)
  {
    var r' := Next(r, e);
    assert r'.Log(side) == r.Log(side) && r'.t.market.book == e.left;
    forall o | o in e.left && o.side == side && o.id >= r.From(side) && o.id >= first
      ensures r.Log(side).placed.Some? && AtRung(r.Log(side).placed.value, o)
    {
      var was :| was in r.t.market.book && was.id == o.id && was.side == o.side && was.price == o.price;
      assert AtRung(r.Log(side).placed.value, was);
    }
  }

  lemma StepKeepsStanding(r: Run, e: Event, first: nat)
    requires Kept(r) && Legal(r, e) && Standing(r, first)
    ensures Standing(Next(r, e), first)
  {
    forall side ensures Quoted(Next(r, e), side, first) && AnchoredAsPlaced(Next(r, e), side) {
      assert Quoted(r, side, first) && AnchoredAsPlaced(r, side);
      hide Kept, LeftOf;
      match e {
        case Visit(x, retry, answer) =>
          assert Sound(r.t.market) by { KeptIsSound(r); }
          hide Attempted, Sound, AtRung, FinalPlan, NoneSince;
          if Plans(e) {
            VisitKeepsQuoted(r, x, retry, answer, side, first);
            VisitKeepsAnchored(r, x, retry, answer, side);
          } else {
            BlindVisit(r, x, retry, answer);
          }
        case Trades(_) => ShrinkKeepsStanding(r, e, side, first);
        case TearDown(_) => ShrinkKeepsStanding(r, e, side, first);
        case Resume =>
      }
    }
    if e.Visit? {
      NextNumberGrows(r.t, e.x, e.retry, e.answer);
    }
    hide Quoted, AnchoredAsPlaced, Attempted;
  }

  lemma KeptIsSound(r: Run)
    requires Kept(r)
    ensures Sound(r.t.market)
  {
  }

  /** A visit that cannot tell the funding changes nothing. */
  lemma BlindVisit(r: Run, x: Inputs, retry: nat -> Outcome, answer: nat -> Outcome)
    requires !Plans(Visit(x, retry, answer))
    ensures Next(r, Visit(x, retry, answer)) == r
  {
  }

  lemma {:induction false} AlwaysStanding(m: Market, history: seq<Event>)
    requires Sound(m) && LegalHistory(m, history)
    ensures Standing(After(m, history), m.next)
  {
    if history != [] {
      var n := |history| - 1;
      AlwaysStanding(m, history[..n]);
      StaleOrdersAreRemembered(m, history[..n]);
      hide Kept, Next, Legal, Standing, Sound;
      StepKeepsStanding(After(m, history[..n]), history[n], m.next);
    }
  }

  /** Some visit of the history was made with these inputs. */
  ghost predicate VisitedWith(history: seq<Event>, was: Inputs) {
    exists i :: 0 <= i < |history| && history[i].Visit? && history[i].x == was
  }

  /** `o` stands at a rung of this visit's ladder, or of an earlier visit's at a price within the threshold of the current one. */
  ghost predicate StandsNear(history: seq<Event>, x: Inputs, o: Resting) {
    AtRung(x, o) || exists was :: VisitedWith(history, was) && AtRung(was, o) && PriceNear(was.price, x.price, x.threshold)
  }

  lemma {:induction false} PlacedOnSomeVisit(m: Market, history: seq<Event>, side: Side)
    ensures var placed := After(m, history).Log(side).placed; placed.Some? ==> VisitedWith(history, placed.value)
  {
    if history != [] {
      var n := |history| - 1;
      PlacedOnSomeVisit(m, history[..n], side);
      assert Plans(history[n]) ==> VisitedWith(history, history[n].x);
      assert forall was :: VisitedWith(history[..n], was) ==> VisitedWith(history, was);
      hide VisitedWith, Attempted, FinalPlan, Seen;
    }
  }

  lemma KeptNearPrice(r: Run, x: Inputs, o: Resting)
    requires Sound(r.t.market) && Legal(r, Visit(x, ALL_SUCCEED, ALL_SUCCEED)) && Plans(Visit(x, ALL_SUCCEED, ALL_SUCCEED))
    requires AnchoredAsPlaced(r, o.side) && x.Fundable(o.side)
    requires o in Seen(r.t, ALL_SUCCEED).book && o in r.t.market.book && o.id >= r.From(o.side)
    requires FinalPlan(Seen(r.t, ALL_SUCCEED), x).On(o.side).Keep?
    ensures r.Log(o.side).placed.Some? ==> PriceNear(r.Log(o.side).placed.value.price, x.price, x.threshold)
  {
    var seen := Seen(r.t, ALL_SUCCEED);
    SeenKeepsRest(r.t, ALL_SUCCEED);
    PlanByFunding(seen, x, o.side);
    if seen.restore {
      ForcedKeepsNothing(seen, x, o);
    }
    if r.Log(o.side).placed.Some? {
      assert !NoneSince(r, o.side);
      MovedPastExactly(r.Log(o.side).placed.value.price, x.price, x.threshold);
    }
    hide FinalPlan, Seen, MovedPast, PriceNear, AnyPartial, ShapeChanged, SideCount;
  }

  /**
   After any run, a visit whose calls succeed leaves every order this run placed on a fundable side at a rung of some
   visit whose price is within the threshold of the current one, or of this visit.
   */
  lemma CleanVisitQuotesNearPrice(m: Market, history: seq<Event>, x: Inputs, o: Resting)
    requires Sound(m) && LegalHistory(m, history)
    requires var e := Visit(x, ALL_SUCCEED, ALL_SUCCEED); Legal(After(m, history), e) && Plans(e)
    requires o in Next(After(m, history), Visit(x, ALL_SUCCEED, ALL_SUCCEED)).t.market.book
    requires x.Fundable(o.side) && o.id >= m.next
    ensures StandsNear(history, x, o)
  {
    PlacedOnSomeVisit(m, history, o.side);
    var r, e := After(m, history), Visit(x, ALL_SUCCEED, ALL_SUCCEED);
    var r' := Next(r, e);
    CleanVisitMends(m, history, x);
    StaleOrdersAreRemembered(m, history);
    KeptIsSound(r);
    AlwaysStanding(m, history);
    assert Quoted(r, o.side, m.next) && AnchoredAsPlaced(r, o.side);
    PlanByFunding(Seen(r.t, ALL_SUCCEED), x, o.side);
    hide After, LegalHistory, Seen, Attempted, Sound, FinalPlan, AtRung, PriceNear, Kept, SideCount, AnyPartial, AnchoredAsPlaced, VisitedWith;
    assert o.id >= r'.From(o.side);
    LeftBySide(r, x, ALL_SUCCEED, ALL_SUCCEED, o);
    if FinalPlan(Seen(r.t, ALL_SUCCEED), x).On(o.side).Keep? {
      KeptNearPrice(r, x, o);
    }
  }

  // Healing after any number of failing visits

  datatype Calls = Calls(retry: nat -> Outcome, answer: nat -> Outcome)

  function VisitedBy(t: Tended, x: Inputs, visits: seq<Calls>): Tended {
    if visits == [] then t
    else
      var n := |visits| - 1;
      Attempted(VisitedBy(t, x, visits[..n]), x, visits[n].retry, visits[n].answer)
  }

  lemma VisitKeepsRemembered(t: Tended, x: Inputs, retry: nat -> Outcome, answer: nat -> Outcome, side: Side)
    requires Sound(t.market) && Remembered(t, x, side) && x.Fundable(side)
    ensures Remembered(Attempted(t, x, retry, answer), x, side)
  {
    var t' := Attempted(t, x, retry, answer);
    PlanByFunding(Seen(t, retry), x, side);
    hide Attempted, FinalPlan, Seen, Sound, FreshAtRung;
    forall o | o in t'.market.book && o.side == side ensures FreshAtRung(x, o) || o.id in t'.pending {
      FailuresAreRemembered(t, x, retry, answer, o);
      LeftOrPlaced(t, x, retry, answer, o);
      if o in Seen(t, retry).book && o in t.market.book && o.id in t.pending {
        MemoryLasts(t, x, retry, answer, o);
      }
    }
  }

  lemma {:induction false} VisitsKeepRemembered(t: Tended, x: Inputs, visits: seq<Calls>, side: Side)
    requires Sound(t.market) && Remembered(t, x, side) && x.Fundable(side)
    ensures Sound(VisitedBy(t, x, visits).market) && Remembered(VisitedBy(t, x, visits), x, side)
  {
    if visits != [] {
      var n := |visits| - 1;
      VisitsKeepRemembered(t, x, visits[..n], side);
      hide Attempted, Remembered, Sound;
      VisitKeepsRemembered(VisitedBy(t, x, visits[..n]), x, visits[n].retry, visits[n].answer, side);
      AttemptKeepsSound(VisitedBy(t, x, visits[..n]), x, visits[n].retry, visits[n].answer);
    }
  }

  /**
   Failures heal: once a visit replaced a side, whatever failed then and on any number of visits after, one
   visit whose calls succeed leaves the side with exactly its rungs' number of orders, each an unfilled new rung,
   and nothing to remember; with a positive threshold the visit after that has nothing to do.
   */
  lemma ManyFailuresHeal(t: Tended, x: Inputs, first: Calls, visits: seq<Calls>, side: Side)
    requires Sound(t.market) && FinalPlan(Seen(t, first.retry), x).On(side).Replace?
    ensures var healed := Attempted(VisitedBy(Attempted(t, x, first.retry, first.answer), x, visits), x, ALL_SUCCEED, ALL_SUCCEED);
            && Clean(healed, x, side) && healed.pending == {}
            && (x.threshold > 0.0 ==> PlanMarket(healed.market, x) == Plan(Keep, Keep))
  {
    PlanByFunding(Seen(t, first.retry), x, side);
    hide Attempted, FinalPlan, Seen, Sound, Remembered, PlanMarket, VisitedBy, Clean;
    var t' := Attempted(t, x, first.retry, first.answer);
    ReplacedIsRemembered(t, x, first.retry, first.answer, side);
    AttemptKeepsSound(t, x, first.retry, first.answer);
    VisitsKeepRemembered(t', x, visits, side);
    RememberedHeals(VisitedBy(t', x, visits), x, side);
  }

  // A crossing while remembered

  const PRICE_DOUBLED := Inputs(200.0, 1.0, 1.0, Funded, Short, [Level(-1.0, 1.0)], [])
  const OLD_OFFER := Resting(0, Offer, 100.0, false)
  const OLD_MARKET := Market(Anchors(None, None), true, None, [OLD_OFFER], 1)

  /** Refuses the first operation alone. */
  const FIRST_REFUSED: nat -> Outcome := (i: nat) => if i == 0 then Refused else Succeeded

  function NewBid(): real {
    RungPrice(Bid, 200.0, -1.0, 1.0)
  }

  lemma NewBidIsHigh()
    ensures NewBid() >= 197.0
  {
    assert Steps(200.0, -1.0, 1.0) == 198.0;
    assert 198.0.Floor == 198;
  }

  lemma OldSides()
    ensures OnSide([OLD_OFFER], Bid) == [] && OnSide([OLD_OFFER], Offer) == [OLD_OFFER]
  {
    assert [OLD_OFFER][1..] == [];
    assert OnSide([], Bid) == [] && OnSide([], Offer) == [];
  }

  lemma PriceDoubledPlan()
    ensures FinalPlan(OLD_MARKET, PRICE_DOUBLED) == Plan(Replace, Cancel)
  {
    OldSides();
  }

  lemma OldQueues(mid: real)
    ensures SideQueue([OLD_OFFER], Bid, mid) == [] && SideQueue([OLD_OFFER], Offer, mid) == [0]
  {
    OldSides();
    assert StableSort.Sort([OLD_OFFER], Distance(mid)) == [OLD_OFFER];
    assert StableSort.Sort([], Distance(mid)) == [];
  }

  lemma PriceDoubledRungs()
    ensures TightestFirst(NewRungs([Level(-1.0, 1.0)], [], 200.0, 1.0, Plan(Replace, Cancel))) == [Rung(1.0, Bid, NewBid(), 1.0)]
  {
    hide RungPrice;
    var rungs := NewRungs([Level(-1.0, 1.0)], [], 200.0, 1.0, Plan(Replace, Cancel));
    assert rungs == [Rung(1.0, Bid, NewBid(), 1.0)];
    assert TightestFirst([Rung(1.0, Bid, NewBid(), 1.0)]) == [Rung(1.0, Bid, NewBid(), 1.0)];
  }

  lemma PriceDoubledOps()
    ensures PlannedOps(OLD_MARKET, PRICE_DOUBLED) == [CancelOp(0, true), PlaceOp(Bid, NewBid(), 1.0)]
  {
    PriceDoubledPlan();
    OldQueues(200.0);
    PriceDoubledRungs();
    hide SideQueue, NewRungs, TightestFirst, NewBid, FinalPlan;
    assert Withdrawals([], [0], Plan(Replace, Cancel)) == [CancelOp(0, true)];
    assert Interleaved([], [], []) == [];
    assert Refresh([Rung(1.0, Bid, NewBid(), 1.0)], [], [0], Plan(Replace, Cancel)) == [PlaceOp(Bid, NewBid(), 1.0)];
  }

  lemma OnlyPlaceEffective(price: real)
    ensures Effective([CancelOp(0, true), PlaceOp(Bid, price, 1.0)], FIRST_REFUSED) == [PlaceOp(Bid, price, 1.0)]
  {
    var ops := [CancelOp(0, true), PlaceOp(Bid, price, 1.0)];
    assert ops[..1] == [CancelOp(0, true)] && ops[..1][..0] == [];
    assert Effective(ops[..1], FIRST_REFUSED) == [];
  }

  /** The memory is needed: one refused cancel leaves a new bid resting above an old offer. */
  lemma RefusedCancelCrosses()
    ensures var t := Attempted(Tended(OLD_MARKET, {}), PRICE_DOUBLED, ALL_SUCCEED, FIRST_REFUSED);
            && Sound(OLD_MARKET) && Uncrossed(OLD_MARKET.book) && Separated(PRICE_DOUBLED) && Placeable(PRICE_DOUBLED)
            && !Uncrossed(t.market.book) && t.pending == {0}
  {
    NothingRetried(OLD_MARKET, ALL_SUCCEED);
    PriceDoubledOps();
    NewBidIsHigh();
    OnlyPlaceEffective(NewBid());
    hide NewBid, Effective, PlannedOps, Seen, ServerBook, Listed, NextAnchors, FinalPlan;
    var t := Attempted(Tended(OLD_MARKET, {}), PRICE_DOUBLED, ALL_SUCCEED, FIRST_REFUSED);
    var bid := Resting(1, Bid, NewBid(), false);
    assert Exec([PlaceOp(Bid, NewBid(), 1.0)], [OLD_OFFER], 1) == [OLD_OFFER, bid];
    assert t.market.book == [OLD_OFFER, bid];
    assert t.market.book[0] == OLD_OFFER && t.market.book[1] == bid;
    var ops := [CancelOp(0, true), PlaceOp(Bid, NewBid(), 1.0)];
    assert ops[0].CancelOp? && !FIRST_REFUSED(0).Succeeded?;
    assert FailedCancels(ops, FIRST_REFUSED) == {0};
  }

  lemma NothingRemembered(t: Tended)
    requires !Uncrossed(t.market.book) && t.pending == {}
    ensures !CrossingsRemembered(t)
  {
  }

  lemma AfterOneMore(m: Market, history: seq<Event>, e: Event)
    ensures After(m, history + [e]) == Next(After(m, history), e)
    ensures LegalHistory(m, history + [e]) <==> LegalHistory(m, history) && Legal(After(m, history), e)
  {
    assert (history + [e])[..|history|] == history;
  }

  /** Torn down with every cancel failing, a market keeps its book and remembers nothing. */
  lemma TornDownWhole(r: Run)
    requires Sound(r.t.market)
    ensures var down := TearDown(r.t.market.book);
            Legal(r, down) && Next(r, down).t == Tended(r.t.market.(anchors := Anchors(None, None)), {}) && Next(r, down).priceless
  {
    hide Logged;
  }

  lemma ResumeForces(r: Run)
    ensures Next(r, Resume).t == r.t.(market := r.t.market.(restore := true)) && (r.priceless ==> Legal(r, Resume))
  {
    hide Logged;
  }

  ghost predicate Forgotten(r: Run) {
    r.priceless && !CrossingsRemembered(r.t) && Legal(r, Resume) && !CrossingsRemembered(Next(r, Resume).t)
  }

  lemma TearDownForgets(r: Run)
    requires Sound(r.t.market) && !Uncrossed(r.t.market.book)
    ensures Legal(r, TearDown(r.t.market.book)) && Forgotten(Next(r, TearDown(r.t.market.book)))
  {
    hide Uncrossed, CrossingsRemembered, Sound, LeftOf, Next, Legal;
    var down := Next(r, TearDown(r.t.market.book));
    TornDownWhole(r);
    ResumeForces(down);
    NothingRemembered(down.t);
    NothingRemembered(Next(down, Resume).t);
  }

  const REFUSED_VISIT := Visit(PRICE_DOUBLED, ALL_SUCCEED, FIRST_REFUSED)

  lemma FirstStep(m: Market, e: Event)
    ensures var start := Run(Tended(m, {}), false, SideLog(0, None), SideLog(0, None));
            After(m, [e]) == Next(start, e) && (LegalHistory(m, [e]) <==> Legal(start, e))
  {
    hide Next, Legal;
    assert [e][..0] == [];
  }

  lemma VisitAttempts(r: Run, x: Inputs, retry: nat -> Outcome, answer: nat -> Outcome)
    ensures Next(r, Visit(x, retry, answer)).t == Attempted(r.t, x, retry, answer)
    ensures !r.priceless && FundingAsOne(x) ==> Legal(r, Visit(x, retry, answer))
  {
    hide Logged, Attempted;
  }

  lemma RefusedVisitIsPlaceable()
    ensures AlwaysPlaceable([REFUSED_VISIT]) && Legal(Run(Tended(OLD_MARKET, {}), false, SideLog(0, None), SideLog(0, None)), REFUSED_VISIT)
  {
    RefusedCancelCrosses();
    hide Attempted, Sound, Uncrossed, Placeable, Separated;
  }

  lemma RefusedVisitCrosses()
    ensures LegalHistory(OLD_MARKET, [REFUSED_VISIT])
    ensures var r := After(OLD_MARKET, [REFUSED_VISIT]); Sound(r.t.market) && !Uncrossed(r.t.market.book)
  {
    assert REFUSED_VISIT == Visit(PRICE_DOUBLED, ALL_SUCCEED, FIRST_REFUSED);
    hide *;
    RefusedCancelCrosses();
    RefusedVisitIsPlaceable();
    AttemptKeepsSound(Tended(OLD_MARKET, {}), PRICE_DOUBLED, ALL_SUCCEED, FIRST_REFUSED);
    FirstStep(OLD_MARKET, REFUSED_VISIT);
    VisitAttempts(Run(Tended(OLD_MARKET, {}), false, SideLog(0, None), SideLog(0, None)), PRICE_DOUBLED, ALL_SUCCEED, FIRST_REFUSED);
  }

  /**
   An outage forgets: torn down with the cancels failing again, the crossed book has nothing remembered, until the
   resume forces a visit.
   */
  lemma OutageForgetsCrossings() returns (history: seq<Event>)
    ensures LegalHistory(OLD_MARKET, history) && AlwaysPlaceable(history) && Forgotten(After(OLD_MARKET, history))
  {
    hide Sound, Uncrossed, Forgotten, Next, Legal, After, LegalHistory, Separated, Placeable, Attempted;
    RefusedVisitIsPlaceable();
    RefusedVisitCrosses();
    var r := After(OLD_MARKET, [REFUSED_VISIT]);
    TearDownForgets(r);
    history := [REFUSED_VISIT] + [TearDown(r.t.market.book)];
    AfterOneMore(OLD_MARKET, [REFUSED_VISIT], TearDown(r.t.market.book));
    assert [REFUSED_VISIT][0] == REFUSED_VISIT;
  }
}
