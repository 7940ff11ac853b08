/** The book after a plan's operations, in full or cut short, with every operation that ran succeeding. */
module GridBook {
  import opened StableSort
  import opened GridPricing
  import opened GridOps
  import opened GridExecution

  ghost predicate InBook(book: seq<Resting>, id: nat) {
    exists o :: o in book && o.id == id
  }

  /** Each id is cancelled at most once, and only if it rests. */
  ghost predicate CancelsOnce(ops: seq<GridOp>, book: seq<Resting>) {
    forall id :: CancelCount(ops, id) <= if InBook(book, id) then 1 else 0
  }

  lemma {:induction false} WithoutMembers(book: seq<Resting>, id: nat)
    ensures forall o :: o in Without(book, id) <==> o in book && o.id != id
    ensures Distinct(book) ==> Distinct(Without(book, id))
  {
    if book != [] {
      WithoutMembers(book[1..], id);
      assert book == [book[0]] + book[1..];
      if Distinct(book) {
        assert forall o :: o in book[1..] ==> o.id != book[0].id;
      }
    }
  }

  lemma {:induction false} AbsentId(book: seq<Resting>, id: nat)
    requires forall o :: o in book ==> o.id != id
    ensures Without(book, id) == book
  {
    if book != [] {
      assert book == [book[0]] + book[1..];
      AbsentId(book[1..], id);
    }
  }

  lemma {:induction false} WithoutCounts(book: seq<Resting>, id: nat, side: Side)
    requires Distinct(book)
    ensures SideCount(Without(book, id), side) == SideCount(book, side) - if id in SideIds(book, side) then 1 else 0
  {
    if book != [] {
      assert book == [book[0]] + book[1..];
      assert id in SideIds(book, side) <==> (book[0].side == side && book[0].id == id) || id in SideIds(book[1..], side);
      if book[0].id == id {
        AbsentId(book[1..], id);
        assert Without(book, id) == book[1..];
        assert id !in SideIds(book[1..], side);
      } else {
        WithoutCounts(book[1..], id, side);
        assert Without(book, id)[1..] == Without(book[1..], id);
      }
    }
  }

  lemma {:induction false} AppendCounts(book: seq<Resting>, o: Resting, side: Side)
    ensures SideCount(book + [o], side) == SideCount(book, side) + if o.side == side then 1 else 0
  {
    if book == [] {
      assert book + [o] == [o];
      assert OnSide([o], side) == if o.side == side then [o] else [];
    } else {
      AppendCounts(book[1..], o, side);
      assert (book + [o])[1..] == book[1..] + [o];
    }
  }

  lemma {:induction false} TallySame(ops: seq<GridOp>, side: Side, a: set<nat>, b: set<nat>)
    requires forall id :: CancelCount(ops, id) > 0 ==> (id in a <==> id in b)
    ensures Tally(ops, side, a) == Tally(ops, side, b)
  {
    if ops != [] {
      assert ops[0].CancelOp? ==> CancelCount(ops, ops[0].orderId) > 0;
      assert forall id :: CancelCount(ops[1..], id) > 0 ==> CancelCount(ops, id) > 0;
      TallySame(ops[1..], side, a, b);
    }
  }

  lemma CancelStep(ops: seq<GridOp>, book: seq<Resting>, side: Side)
    requires ops != [] && ops[0].CancelOp? && Distinct(book) && CancelsOnce(ops, book)
    ensures var id := ops[0].orderId; var book' := Without(book, id);
            && Distinct(book') && CancelsOnce(ops[1..], book')
            && SideCount(book', side) == SideCount(book, side) - (if id in SideIds(book, side) then 1 else 0)
            && Tally(ops[1..], side, SideIds(book', side)) == Tally(ops[1..], side, SideIds(book, side))
  {
    var id := ops[0].orderId;
    var book' := Without(book, id);
    WithoutMembers(book, id);
    WithoutCounts(book, id, side);
    forall x ensures CancelCount(ops[1..], x) <= if InBook(book', x) then 1 else 0 {
      assert CancelCount(ops, x) <= if InBook(book, x) then 1 else 0;
      if x != id && InBook(book, x) {
        var o :| o in book && o.id == x;
        assert o in book';
      }
    }
    forall x | CancelCount(ops[1..], x) > 0 ensures x in SideIds(book', side) <==> x in SideIds(book, side) {
      assert CancelCount(ops, id) <= if InBook(book, id) then 1 else 0;
      assert x != id;
    }
    TallySame(ops[1..], side, SideIds(book', side), SideIds(book, side));
  }

  lemma PlaceStep(ops: seq<GridOp>, book: seq<Resting>, next: nat, side: Side)
    requires ops != [] && ops[0].PlaceOp? && Distinct(book) && Below(book, next) && CancelsOnce(ops, book)
    ensures var book' := book + [Resting(next, ops[0].side, ops[0].price, false)];
            && Distinct(book') && Below(book', next + 1) && CancelsOnce(ops[1..], book')
            && SideCount(book', side) == SideCount(book, side) + (if ops[0].side == side then 1 else 0)
            && Tally(ops[1..], side, SideIds(book', side)) == Tally(ops[1..], side, SideIds(book, side))
  {
    var placed := Resting(next, ops[0].side, ops[0].price, false);
    var book' := book + [placed];
    AppendCounts(book, placed, side);
    forall x ensures CancelCount(ops[1..], x) <= if InBook(book', x) then 1 else 0 {
      assert CancelCount(ops, x) <= if InBook(book, x) then 1 else 0;
      if InBook(book, x) {
        var o :| o in book && o.id == x;
        assert o in book';
      }
    }
    forall x | CancelCount(ops[1..], x) > 0 ensures x in SideIds(book', side) <==> x in SideIds(book, side) {
      assert CancelCount(ops, x) <= if InBook(book, x) then 1 else 0;
      assert x != next;
    }
    TallySame(ops[1..], side, SideIds(book', side), SideIds(book, side));
  }

  /** Executing operations changes each side's count by their tally. */
  lemma {:induction false} ExecCounts(ops: seq<GridOp>, book: seq<Resting>, next: nat, side: Side)
    requires Distinct(book) && Below(book, next) && CancelsOnce(ops, book)
    ensures SideCount(Exec(ops, book, next), side) == SideCount(book, side) + Tally(ops, side, SideIds(book, side))
    ensures Distinct(Exec(ops, book, next))
    decreases |ops|
  {
    if ops != [] {
      match ops[0] {
        case CancelOp(id, _) =>
          CancelStep(ops, book, side);
          WithoutMembers(book, id);
          ExecCounts(ops[1..], Without(book, id), next, side);
        case PlaceOp(s, price, _) =>
          PlaceStep(ops, book, next, side);
          ExecCounts(ops[1..], book + [Resting(next, s, price, false)], next + 1, side);
      }
    }
  }

  ghost predicate PlacedBy(ops: seq<GridOp>, side: Side, price: real) {
    exists op :: op in ops && op.PlaceOp? && op.side == side && op.price == price
  }

  /** What remains was there and not cancelled, or was just placed and is unfilled. */
  lemma {:induction false} ExecMembers(ops: seq<GridOp>, book: seq<Resting>, next: nat)
    requires Below(book, next)
    requires forall id :: id >= next ==> CancelCount(ops, id) == 0
    ensures forall o :: o in Exec(ops, book, next) ==>
              (o in book && CancelCount(ops, o.id) == 0) || (!o.partial && PlacedBy(ops, o.side, o.price))
    ensures forall o :: o in book && CancelCount(ops, o.id) == 0 ==> o in Exec(ops, book, next)
    ensures Below(Exec(ops, book, next), next + |Places(ops)|)
    decreases |ops|
  {
    if ops != [] {
      var rest := ops[1..];
      assert forall id :: CancelCount(rest, id) <= CancelCount(ops, id);
      assert ops == [ops[0]] + rest;
      assert forall side, price :: PlacedBy(rest, side, price) ==> PlacedBy(ops, side, price);
      match ops[0] {
        case CancelOp(id, _) =>
          WithoutMembers(book, id);
          ExecMembers(rest, Without(book, id), next);
        case PlaceOp(s, price, _) =>
          var placed := Resting(next, s, price, false);
          ExecMembers(rest, book + [placed], next + 1);
          assert PlacedBy(ops, s, price);
      }
    }
  }

  // Plans

  lemma {:induction false} PrefixCancelsFewer(ops: seq<GridOp>, k: nat, id: nat)
    requires k <= |ops|
    ensures CancelCount(ops[..k], id) <= CancelCount(ops, id)
  {
    assert ops == ops[..k] + ops[k..];
    CancelCountConcat(ops[..k], ops[k..], id);
  }

  lemma QueueMembers(book: seq<Resting>, side: Side, mid: real)
    requires Distinct(book)
    ensures |SideQueue(book, side, mid)| == SideCount(book, side)
    ensures forall id :: id in SideQueue(book, side, mid) ==> id in SideIds(book, side)
    ensures SideIds(book, Bid) !! SideIds(book, Offer)
  {
    SortKeepsMembers(OnSide(book, side), Distance(mid));
  }

  lemma {:induction false} SortKeepsRungsOn(rungs: seq<Rung>, side: Side)
    ensures RungsOn(TightestFirst(rungs), side) == RungsOn(rungs, side)
  {
    if rungs != [] {
      SortKeepsRungsOn(rungs[1..], side);
      InsertRungsOn(rungs[0], TightestFirst(rungs[1..]), side);
    }
  }

  lemma {:induction false} InsertRungsOn(x: Rung, s: seq<Rung>, side: Side)
    ensures RungsOn(Insert(x, s, (r: Rung) => r.distance), side) == RungsOn(s, side) + if x.side == side then 1 else 0
  {
    if s == [] || x.distance <= s[0].distance {
      assert Insert(x, s, (r: Rung) => r.distance)[1..] == s;
    } else {
      InsertRungsOn(x, s[1..], side);
      assert Insert(x, s, (r: Rung) => r.distance)[1..] == Insert(x, s[1..], (r: Rung) => r.distance);
    }
  }

  lemma {:induction false} AllRungsOn(rungs: seq<Rung>, own: Side, side: Side)
    requires forall r :: r in rungs ==> r.side == own
    ensures RungsOn(rungs, side) == if own == side then |rungs| else 0
  {
    if rungs != [] {
      AllRungsOn(rungs[1..], own, side);
    }
  }

  lemma {:induction false} RungsOnConcat(a: seq<Rung>, b: seq<Rung>, side: Side)
    ensures RungsOn(a + b, side) == RungsOn(a, side) + RungsOn(b, side)
  {
    if a == [] {
      assert a + b == b;
    } else {
      RungsOnConcat(a[1..], b, side);
      assert (a + b)[1..] == a[1..] + b;
    }
  }

  function LevelsOn(bidLevels: seq<Level>, offerLevels: seq<Level>, side: Side): seq<Level> {
    if side.Bid? then bidLevels else offerLevels
  }

  lemma NewRungsOn(bidLevels: seq<Level>, offerLevels: seq<Level>, mid: real, tick: real, plan: Plan, side: Side)
    requires tick > 0.0
    ensures RungsOn(TightestFirst(NewRungs(bidLevels, offerLevels, mid, tick, plan)), side)
            == if plan.On(side).Replace? then |LevelsOn(bidLevels, offerLevels, side)| else 0
  {
    var all := NewRungs(bidLevels, offerLevels, mid, tick, plan);
    SortKeepsRungsOn(all, side);
    var b := if plan.bid.Replace? then SideRungs(Bid, bidLevels, mid, tick) else [];
    var o := if plan.offer.Replace? then SideRungs(Offer, offerLevels, mid, tick) else [];
    RungsOnConcat(b, o, side);
    AllRungsOn(b, Bid, side);
    AllRungsOn(o, Offer, side);
  }

  /** How many orders a side is to have once its plan is carried out. */
  function Target(bidLevels: seq<Level>, offerLevels: seq<Level>, book: seq<Resting>, plan: Plan, side: Side): nat {
    match plan.On(side)
    case Keep => SideCount(book, side)
    case Replace => |LevelsOn(bidLevels, offerLevels, side)|
    case Cancel => 0
  }

  lemma WithdrawalsTally(bids: seq<nat>, offers: seq<nat>, plan: Plan, k: nat, side: Side, mine: set<nat>)
    requires k <= |Withdrawals(bids, offers, plan)| && QueuesMatch(side, bids, offers, mine)
    ensures var ops := Withdrawals(bids, offers, plan); var own := |Own(side, bids, offers)|;
            && (!plan.On(side).Cancel? ==> Tally(ops[..k], side, mine) == 0)
            && (plan.On(side).Cancel? ==> WithinBounds(own, 0, Tally(ops[..k], side, mine), k == |ops|))
  {
    var b, o := OnlyIf(plan.bid, Cancel, bids), OnlyIf(plan.offer, Cancel, offers);
    TailTally(Own(side, b, o), if side.Bid? then o else b, side.Bid?, k, side, mine);
  }

  lemma PlanTally(rungs: seq<Rung>, bids: seq<nat>, offers: seq<nat>, plan: Plan, k: nat, side: Side, mine: set<nat>)
    requires var ops := Withdrawals(bids, offers, plan) + Refresh(rungs, bids, offers, plan); k <= |ops|
    requires QueuesMatch(side, bids, offers, mine)
    requires !plan.On(side).Replace? ==> RungsOn(rungs, side) == 0
    ensures var ops := Withdrawals(bids, offers, plan) + Refresh(rungs, bids, offers, plan);
            var own := |Own(side, bids, offers)|;
            WithinBounds(own, match plan.On(side) case Keep => own case Replace => RungsOn(rungs, side) case Cancel => 0,
                         Tally(ops[..k], side, mine), k == |ops|)
            && (plan.On(side).Keep? ==> Tally(ops[..k], side, mine) == 0)
  {
    var first, tail := Withdrawals(bids, offers, plan), Refresh(rungs, bids, offers, plan);
    var here := if k <= |first| then k else |first|;
    TallySplit(first, tail, k, side, mine);
    WithdrawalsTally(bids, offers, plan, here, side, mine);
    InterleavedTally(rungs, OnlyIf(plan.bid, Replace, bids), OnlyIf(plan.offer, Replace, offers), side, mine, k - here);
  }

  lemma PrefixCancelsOnce(bidLevels: seq<Level>, offerLevels: seq<Level>, mid: real, tick: real,
                          book: seq<Resting>, plan: Plan, k: nat)
    requires tick > 0.0 && Distinct(book)
    requires k <= |Ops(bidLevels, offerLevels, mid, tick, book, plan)|
    ensures CancelsOnce(Ops(bidLevels, offerLevels, mid, tick, book, plan)[..k], book)
  {
    var ops := Ops(bidLevels, offerLevels, mid, tick, book, plan);
    forall id ensures CancelCount(ops[..k], id) <= if InBook(book, id) then 1 else 0 {
      PrefixCancelsFewer(ops, k, id);
      CancelsExactlyUnkeptSides(bidLevels, offerLevels, mid, tick, book, plan, id);
    }
  }

  lemma OpsTally(bidLevels: seq<Level>, offerLevels: seq<Level>, mid: real, tick: real,
                 book: seq<Resting>, plan: Plan, k: nat, side: Side)
    requires tick > 0.0 && Distinct(book)
    requires k <= |Ops(bidLevels, offerLevels, mid, tick, book, plan)|
    ensures var ops := Ops(bidLevels, offerLevels, mid, tick, book, plan);
            var change := Tally(ops[..k], side, SideIds(book, side));
            && WithinBounds(SideCount(book, side), Target(bidLevels, offerLevels, book, plan, side), change, k == |ops|)
            && (plan.On(side).Keep? ==> change == 0)
  {
    var bids, offers := SideQueue(book, Bid, mid), SideQueue(book, Offer, mid);
    var rungs := TightestFirst(NewRungs(bidLevels, offerLevels, mid, tick, plan));
    QueueMembers(book, Bid, mid);
    QueueMembers(book, Offer, mid);
    NewRungsOn(bidLevels, offerLevels, mid, tick, plan, side);
    PlanTally(rungs, bids, offers, plan, k, side, SideIds(book, side));
  }

  /**
   However a refresh is cut short, after the operations that ran each side holds between its old count and
   its target, at most one order below on a replaced side; run in full, it holds exactly its target.
   */
  lemma CutShortWithinBounds(bidLevels: seq<Level>, offerLevels: seq<Level>, mid: real, tick: real,
                             book: seq<Resting>, plan: Plan, next: nat, k: nat, side: Side)
    requires tick > 0.0 && Distinct(book) && Below(book, next)
    requires k <= |Ops(bidLevels, offerLevels, mid, tick, book, plan)|
    ensures var ops := Ops(bidLevels, offerLevels, mid, tick, book, plan);
            var olds, target := SideCount(book, side), Target(bidLevels, offerLevels, book, plan, side);
            var count := SideCount(Exec(ops[..k], book, next), side);
            && MinNat(olds, target) - (if plan.On(side).Replace? && 0 < olds <= target then 1 else 0) <= count
            && count <= MaxNat(olds, target)
            && (k == |ops| ==> count == target)
  {
    var ops := Ops(bidLevels, offerLevels, mid, tick, book, plan);
    PrefixCancelsOnce(bidLevels, offerLevels, mid, tick, book, plan, k);
    ExecCounts(ops[..k], book, next, side);
    OpsTally(bidLevels, offerLevels, mid, tick, book, plan, k, side);
  }
}
