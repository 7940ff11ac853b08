/** The operations that carry out a market plan, and the book they leave after any part of them. */
module GridOps {
  import opened Wrappers
  import opened StableSort
  import opened GridPricing

  /** `leftover`: an old order with no new rung to pair with. */
  datatype GridOp =
    | CancelOp(orderId: nat, leftover: bool)
    | PlaceOp(side: Side, price: real, quantity: real)

  datatype Rung = Rung(distance: real, side: Side, price: real, quantity: real)

  function SideRungs(side: Side, levels: seq<Level>, mid: real, tick: real): (r: seq<Rung>)
    requires tick > 0.0
    ensures |r| == |levels|
    ensures forall i :: 0 <= i < |r| ==> r[i].side == side && r[i].price == RungPrice(side, mid, levels[i].deltaPercent, tick)
  {
    seq(|levels|, i requires 0 <= i < |levels| =>
      Rung(Abs(levels[i].deltaPercent), side, RungPrice(side, mid, levels[i].deltaPercent, tick), levels[i].quantity))
  }

  function NewRungs(bidLevels: seq<Level>, offerLevels: seq<Level>, mid: real, tick: real, plan: Plan): seq<Rung>
    requires tick > 0.0
  {
    (if plan.bid.Replace? then SideRungs(Bid, bidLevels, mid, tick) else [])
    + (if plan.offer.Replace? then SideRungs(Offer, offerLevels, mid, tick) else [])
  }

  function Distance(mid: real): Resting -> real {
    (o: Resting) => Abs(o.price - mid)
  }

  function Ids(orders: seq<Resting>): (ids: seq<nat>)
    ensures |ids| == |orders|
    ensures forall i :: 0 <= i < |ids| ==> ids[i] == orders[i].id
  {
    seq(|orders|, i requires 0 <= i < |orders| => orders[i].id)
  }

  /** Ids of one side's resting orders, nearest to `mid` first. */
  function SideQueue(orders: seq<Resting>, side: Side, mid: real): seq<nat> {
    Ids(Sort(OnSide(orders, side), Distance(mid)))
  }

  function Cancels(ids: seq<nat>): (ops: seq<GridOp>)
    ensures |ops| == |ids|
    ensures forall i :: 0 <= i < |ids| ==> ops[i] == CancelOp(ids[i], true)
  {
    seq(|ids|, i requires 0 <= i < |ids| => CancelOp(ids[i], true))
  }

  function PairedWith(olds: seq<nat>): seq<GridOp> {
    if olds == [] then [] else [CancelOp(olds[0], false)]
  }

  function Rest(olds: seq<nat>): seq<nat> {
    if olds == [] then [] else olds[1..]
  }

  function Own(side: Side, bids: seq<nat>, offers: seq<nat>): seq<nat> {
    if side.Bid? then bids else offers
  }

  /** Both queues once the head of the side's own is used. */
  function QueuesAfter(side: Side, bids: seq<nat>, offers: seq<nat>): (seq<nat>, seq<nat>) {
    if side.Bid? then (Rest(bids), offers) else (bids, Rest(offers))
  }

  function PlaceRung(rung: Rung): GridOp {
    PlaceOp(rung.side, rung.price, rung.quantity)
  }

  /** One old order of the rung's side cancelled before each rung placed; what is left is cancelled last. */
  function Interleaved(rungs: seq<Rung>, bids: seq<nat>, offers: seq<nat>): seq<GridOp> {
    if rungs == [] then
      Cancels(bids) + Cancels(offers)
    else
      var side := rungs[0].side;
      var queues := QueuesAfter(side, bids, offers);
      PairedWith(Own(side, bids, offers)) + [PlaceRung(rungs[0])] + Interleaved(rungs[1..], queues.0, queues.1)
  }

  function OnlyIf(action: SideAction, wanted: SideAction, ids: seq<nat>): seq<nat> {
    if action == wanted then ids else []
  }

  /** Cancels of the sides that are only withdrawn. */
  function Withdrawals(bids: seq<nat>, offers: seq<nat>, plan: Plan): seq<GridOp> {
    Cancels(OnlyIf(plan.bid, Cancel, bids)) + Cancels(OnlyIf(plan.offer, Cancel, offers))
  }

  function Refresh(rungs: seq<Rung>, bids: seq<nat>, offers: seq<nat>, plan: Plan): seq<GridOp> {
    Interleaved(rungs, OnlyIf(plan.bid, Replace, bids), OnlyIf(plan.offer, Replace, offers))
  }

  function TightestFirst(rungs: seq<Rung>): seq<Rung> {
    Sort(rungs, (r: Rung) => r.distance)
  }

  function Ops(bidLevels: seq<Level>, offerLevels: seq<Level>, mid: real, tick: real,
               orders: seq<Resting>, plan: Plan): seq<GridOp>
    requires tick > 0.0
  {
    var bids, offers := SideQueue(orders, Bid, mid), SideQueue(orders, Offer, mid);
    Withdrawals(bids, offers, plan)
    + Refresh(TightestFirst(NewRungs(bidLevels, offerLevels, mid, tick, plan)), bids, offers, plan)
  }

  method BuildRungs(side: Side, levels: seq<Level>, mid: real, tick: real) returns (rungs: seq<Rung>)
    requires tick > 0.0
    ensures rungs == SideRungs(side, levels, mid, tick)
  {
    rungs := [];
    for i := 0 to |levels|
      invariant rungs == SideRungs(side, levels, mid, tick)[..i]
    {
      var price := RungPrice(side, mid, levels[i].deltaPercent, tick);
      rungs := rungs + [Rung(Abs(levels[i].deltaPercent), side, price, levels[i].quantity)];
    }
  }

  lemma InterleaveStep(done: seq<GridOp>, rungs: seq<Rung>, bids: seq<nat>, offers: seq<nat>)
    requires rungs != []
    ensures var side := rungs[0].side; var queues := QueuesAfter(side, bids, offers);
            done + Interleaved(rungs, bids, offers)
            == (done + PairedWith(Own(side, bids, offers)) + [PlaceRung(rungs[0])]) + Interleaved(rungs[1..], queues.0, queues.1)
  {
  }

  lemma InterleaveEnd(done: seq<GridOp>, bids: seq<nat>, offers: seq<nat>)
    ensures done + Interleaved([], bids, offers) == done + Cancels(bids) + Cancels(offers)
  {
  }

  /** Drains the two queues of old orders while placing the new rungs. */
  method Interleave(rungs: seq<Rung>, bids: seq<nat>, offers: seq<nat>) returns (ops: seq<GridOp>)
    ensures ops == Interleaved(rungs, bids, offers)
  {
    hide Interleaved, PairedWith, Rest, Cancels;
    var bidOld, offerOld := bids, offers;
    ops := [];
    for i := 0 to |rungs|
      invariant ops + Interleaved(rungs[i..], bidOld, offerOld) == Interleaved(rungs, bids, offers)
    {
      assert rungs[i..][0] == rungs[i] && rungs[i..][1..] == rungs[i + 1..];
      var rung := rungs[i];
      InterleaveStep(ops, rungs[i..], bidOld, offerOld);
      if rung.side == Bid {
        ops := ops + PairedWith(bidOld);
        bidOld := Rest(bidOld);
      } else {
        ops := ops + PairedWith(offerOld);
        offerOld := Rest(offerOld);
      }
      ops := ops + [PlaceOp(rung.side, rung.price, rung.quantity)];
    }
    assert rungs[|rungs|..] == [];
    InterleaveEnd(ops, bidOld, offerOld);
    ops := ops + Cancels(bidOld);
    ops := ops + Cancels(offerOld);
  }

  method Withdraw(bids: seq<nat>, offers: seq<nat>, plan: Plan) returns (ops: seq<GridOp>)
    ensures ops == Withdrawals(bids, offers, plan)
  {
    ops := [];
    if plan.bid == Cancel {
      ops := ops + Cancels(bids);
    }
    if plan.offer == Cancel {
      ops := ops + Cancels(offers);
    }
  }

  method BuildAllRungs(bidLevels: seq<Level>, offerLevels: seq<Level>, mid: real, tick: real, plan: Plan) returns (rungs: seq<Rung>)
    requires tick > 0.0
    ensures rungs == NewRungs(bidLevels, offerLevels, mid, tick, plan)
  {
    rungs := [];
    if plan.bid == Replace {
      rungs := BuildRungs(Bid, bidLevels, mid, tick);
    }
    if plan.offer == Replace {
      var offerRungs := BuildRungs(Offer, offerLevels, mid, tick);
      rungs := rungs + offerRungs;
    }
  }

  /** The operations of a plan, as the planner builds them. */
  method PlanOps(bidLevels: seq<Level>, offerLevels: seq<Level>, mid: real, tick: real,
                 orders: seq<Resting>, plan: Plan) returns (ops: seq<GridOp>)
    requires tick > 0.0
    ensures ops == Ops(bidLevels, offerLevels, mid, tick, orders, plan)
  {
    var rungs := BuildAllRungs(bidLevels, offerLevels, mid, tick, plan);
    var bidOld, offerOld := SideQueue(orders, Bid, mid), SideQueue(orders, Offer, mid);
    ops := Withdraw(bidOld, offerOld, plan);
    var paired := Interleave(TightestFirst(rungs), OnlyIf(plan.bid, Replace, bidOld), OnlyIf(plan.offer, Replace, offerOld));
    ops := ops + paired;
  }

  // What the operations do to the book

  function Without(book: seq<Resting>, id: nat): seq<Resting> {
    if book == [] then []
    else (if book[0].id == id then [] else [book[0]]) + Without(book[1..], id)
  }

  /** The book after all of `ops` succeed; the server numbers new orders from `next` on. */
  function Exec(ops: seq<GridOp>, book: seq<Resting>, next: nat): seq<Resting>
    decreases ops
  {
    if ops == [] then book
    else match ops[0]
      case CancelOp(id, _) => Exec(ops[1..], Without(book, id), next)
      case PlaceOp(side, price, _) => Exec(ops[1..], book + [Resting(next, side, price, false)], next + 1)
  }

  function SideCount(book: seq<Resting>, side: Side): nat {
    |OnSide(book, side)|
  }

  ghost predicate Distinct(book: seq<Resting>) {
    forall i, j :: 0 <= i < j < |book| ==> book[i].id != book[j].id
  }

  ghost predicate Below(book: seq<Resting>, next: nat) {
    forall o :: o in book ==> o.id < next
  }

  ghost predicate Rests(book: seq<Resting>, side: Side, id: nat) {
    exists o :: o in book && o.side == side && o.id == id
  }
}
