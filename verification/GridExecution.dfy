/** What a plan's operations cancel and place, and how each side of the book stands after any part of them. */
module GridExecution {
  import opened StableSort
  import opened GridPricing
  import opened GridOps

  // Cancels

  ghost function CancelCount(ops: seq<GridOp>, id: nat): nat {
    if ops == [] then 0 else (if ops[0].CancelOp? && ops[0].orderId == id then 1 else 0) + CancelCount(ops[1..], id)
  }

  ghost function Occurs(ids: seq<nat>, id: nat): nat {
    if ids == [] then 0 else (if ids[0] == id then 1 else 0) + Occurs(ids[1..], id)
  }

  ghost function OrdersWith(book: seq<Resting>, id: nat): nat {
    if book == [] then 0 else (if book[0].id == id then 1 else 0) + OrdersWith(book[1..], id)
  }

  lemma {:induction false} CancelCountConcat(a: seq<GridOp>, b: seq<GridOp>, id: nat)
    ensures CancelCount(a + b, id) == CancelCount(a, id) + CancelCount(b, id)
  {
    if a == [] {
      assert a + b == b;
    } else {
      CancelCountConcat(a[1..], b, id);
      assert (a + b)[1..] == a[1..] + b;
    }
  }

  lemma {:induction false} CancelsCounted(ids: seq<nat>, id: nat)
    ensures CancelCount(Cancels(ids), id) == Occurs(ids, id)
  {
    if ids != [] {
      CancelsCounted(ids[1..], id);
      assert Cancels(ids)[1..] == Cancels(ids[1..]);
    }
  }

  lemma {:induction false} InterleavedCancels(rungs: seq<Rung>, bids: seq<nat>, offers: seq<nat>, id: nat)
    ensures CancelCount(Interleaved(rungs, bids, offers), id) == Occurs(bids, id) + Occurs(offers, id)
  {
    if rungs == [] {
      CancelCountConcat(Cancels(bids), Cancels(offers), id);
      CancelsCounted(bids, id);
      CancelsCounted(offers, id);
    } else {
      var place := [PlaceOp(rungs[0].side, rungs[0].price, rungs[0].quantity)];
      var (own, b, o) := if rungs[0].side.Bid? then (bids, Rest(bids), offers) else (offers, bids, Rest(offers));
      InterleavedCancels(rungs[1..], b, o, id);
      CancelCountConcat(PairedWith(own) + place, Interleaved(rungs[1..], b, o), id);
      CancelCountConcat(PairedWith(own), place, id);
    }
  }

  lemma {:induction false} SortKeepsCount(orders: seq<Resting>, key: Resting -> real, id: nat)
    ensures OrdersWith(Sort(orders, key), id) == OrdersWith(orders, id)
  {
    if orders != [] {
      SortKeepsCount(orders[1..], key, id);
      InsertCounts(orders[0], Sort(orders[1..], key), key, id);
    }
  }

  lemma {:induction false} InsertCounts(x: Resting, s: seq<Resting>, key: Resting -> real, id: nat)
    ensures OrdersWith(Insert(x, s, key), id) == OrdersWith(s, id) + if x.id == id then 1 else 0
  {
    if s == [] || key(x) <= key(s[0]) {
      assert Insert(x, s, key)[1..] == s;
    } else {
      InsertCounts(x, s[1..], key, id);
      assert Insert(x, s, key)[1..] == Insert(x, s[1..], key);
    }
  }

  lemma {:induction false} IdsCounted(orders: seq<Resting>, id: nat)
    ensures Occurs(Ids(orders), id) == OrdersWith(orders, id)
  {
    if orders != [] {
      IdsCounted(orders[1..], id);
      assert Ids(orders)[1..] == Ids(orders[1..]);
    }
  }

  lemma {:induction false} SideCounted(book: seq<Resting>, side: Side, id: nat)
    requires Distinct(book)
    ensures OrdersWith(OnSide(book, side), id) == if Rests(book, side, id) then 1 else 0
  {
    if book != [] {
      SideCounted(book[1..], side, id);
      var rest := OnSide(book[1..], side);
      assert book == [book[0]] + book[1..];
      if book[0].side == side {
        assert OnSide(book, side)[1..] == rest;
      } else {
        assert OnSide(book, side) == rest;
      }
      assert Rests(book, side, id) <==> (book[0].side == side && book[0].id == id) || Rests(book[1..], side, id);
      if Rests(book[1..], side, id) {
        assert book[0].id != id;
      }
    }
  }

  lemma QueueCounted(book: seq<Resting>, side: Side, mid: real, id: nat)
    requires Distinct(book)
    ensures Occurs(SideQueue(book, side, mid), id) == if Rests(book, side, id) then 1 else 0
  {
    var mine := OnSide(book, side);
    IdsCounted(Sort(mine, Distance(mid)), id);
    SortKeepsCount(mine, Distance(mid), id);
    SideCounted(book, side, id);
  }

  lemma OpsCancelCount(rungs: seq<Rung>, bids: seq<nat>, offers: seq<nat>, plan: Plan, id: nat)
    ensures CancelCount(Withdrawals(bids, offers, plan), id)
            == (if plan.bid.Cancel? then Occurs(bids, id) else 0) + (if plan.offer.Cancel? then Occurs(offers, id) else 0)
    ensures CancelCount(Refresh(rungs, bids, offers, plan), id)
            == (if plan.bid.Replace? then Occurs(bids, id) else 0) + (if plan.offer.Replace? then Occurs(offers, id) else 0)
  {
    var b, o := OnlyIf(plan.bid, Cancel, bids), OnlyIf(plan.offer, Cancel, offers);
    CancelCountConcat(Cancels(b), Cancels(o), id);
    CancelsCounted(b, id);
    CancelsCounted(o, id);
    InterleavedCancels(rungs, OnlyIf(plan.bid, Replace, bids), OnlyIf(plan.offer, Replace, offers), id);
  }

  /** Some order with this id rests on a side that is not kept. */
  ghost predicate Doomed(book: seq<Resting>, plan: Plan, id: nat) {
    exists o :: o in book && o.id == id && plan.On(o.side) != Keep
  }

  /**
   With distinct ids, the operations cancel exactly the resting orders of the sides not kept, each once.
   */
  lemma CancelsExactlyUnkeptSides(bidLevels: seq<Level>, offerLevels: seq<Level>, mid: real, tick: real,
                                  book: seq<Resting>, plan: Plan, id: nat)
    requires tick > 0.0 && Distinct(book)
    ensures CancelCount(Ops(bidLevels, offerLevels, mid, tick, book, plan), id) == if Doomed(book, plan, id) then 1 else 0
  {
    hide Rests, Doomed, Distinct, SideQueue, Withdrawals, Refresh, TightestFirst, NewRungs, CancelCount, Occurs;
    var bids, offers := SideQueue(book, Bid, mid), SideQueue(book, Offer, mid);
    var rungs := TightestFirst(NewRungs(bidLevels, offerLevels, mid, tick, plan));
    CancelCountConcat(Withdrawals(bids, offers, plan), Refresh(rungs, bids, offers, plan), id);
    OpsCancelCount(rungs, bids, offers, plan, id);
    QueueCounted(book, Bid, mid, id);
    QueueCounted(book, Offer, mid, id);
    DoomedBySide(book, plan, id);
    OneSidePerId(book, id);
  }

  lemma DoomedBySide(book: seq<Resting>, plan: Plan, id: nat)
    ensures Doomed(book, plan, id) <==>
              (plan.bid != Keep && Rests(book, Bid, id)) || (plan.offer != Keep && Rests(book, Offer, id))
  {
    forall side: Side | plan.On(side) != Keep && Rests(book, side, id) ensures Doomed(book, plan, id) {
    }
    assert plan.On(Bid) == plan.bid && plan.On(Offer) == plan.offer;
  }

  lemma OneSidePerId(book: seq<Resting>, id: nat)
    requires Distinct(book)
    ensures !(Rests(book, Bid, id) && Rests(book, Offer, id))
  {
  }

  // Places

  function Places(ops: seq<GridOp>): seq<GridOp> {
    if ops == [] then [] else if ops[0].PlaceOp? then [ops[0]] + Places(ops[1..]) else Places(ops[1..])
  }

  ghost function AsPlaces(rungs: seq<Rung>): seq<GridOp> {
    seq(|rungs|, i requires 0 <= i < |rungs| => PlaceOp(rungs[i].side, rungs[i].price, rungs[i].quantity))
  }

  lemma {:induction false} PlacesConcat(a: seq<GridOp>, b: seq<GridOp>)
    ensures Places(a + b) == Places(a) + Places(b)
  {
    if a == [] {
      assert a + b == b;
    } else {
      PlacesConcat(a[1..], b);
      assert (a + b)[1..] == a[1..] + b;
    }
  }

  lemma {:induction false} CancelsPlaceNothing(ids: seq<nat>)
    ensures Places(Cancels(ids)) == []
  {
    if ids != [] {
      CancelsPlaceNothing(ids[1..]);
      assert Cancels(ids)[1..] == Cancels(ids[1..]);
    }
  }

  lemma {:induction false} InterleavedPlaces(rungs: seq<Rung>, bids: seq<nat>, offers: seq<nat>)
    ensures Places(Interleaved(rungs, bids, offers)) == AsPlaces(rungs)
  {
    if rungs == [] {
      PlacesConcat(Cancels(bids), Cancels(offers));
      CancelsPlaceNothing(bids);
      CancelsPlaceNothing(offers);
    } else {
      var place := [PlaceOp(rungs[0].side, rungs[0].price, rungs[0].quantity)];
      var (own, b, o) := if rungs[0].side.Bid? then (bids, Rest(bids), offers) else (offers, bids, Rest(offers));
      InterleavedPlaces(rungs[1..], b, o);
      PlacesConcat(PairedWith(own) + place, Interleaved(rungs[1..], b, o));
      PlacesConcat(PairedWith(own), place);
      assert Places(place) == place && Places(PairedWith(own)) == [];
    }
  }

  /** Each rung of the replaced sides is placed exactly once, tightest first, and nothing else is placed. */
  lemma PlacesExactlyTheRungs(bidLevels: seq<Level>, offerLevels: seq<Level>, mid: real, tick: real,
                              book: seq<Resting>, plan: Plan)
    returns (rungs: seq<Rung>)
    requires tick > 0.0
    ensures Places(Ops(bidLevels, offerLevels, mid, tick, book, plan)) == AsPlaces(rungs)
    ensures rungs == TightestFirst(NewRungs(bidLevels, offerLevels, mid, tick, plan))
    ensures multiset(rungs) == multiset(NewRungs(bidLevels, offerLevels, mid, tick, plan))
    ensures SortedBy(rungs, (r: Rung) => r.distance)
  {
    hide SideQueue, NewRungs, Places, AsPlaces, Withdrawals, Refresh;
    var bids, offers := SideQueue(book, Bid, mid), SideQueue(book, Offer, mid);
    var all := NewRungs(bidLevels, offerLevels, mid, tick, plan);
    rungs := TightestFirst(all);
    SortOrders(all, (r: Rung) => r.distance);
    PlacesConcat(Withdrawals(bids, offers, plan), Refresh(rungs, bids, offers, plan));
    WithdrawalsPlaceNothing(bids, offers, plan);
    RefreshPlaces(rungs, bids, offers, plan);
    assert [] + AsPlaces(rungs) == AsPlaces(rungs);
    hide Sort;
  }

  lemma WithdrawalsPlaceNothing(bids: seq<nat>, offers: seq<nat>, plan: Plan)
    ensures Places(Withdrawals(bids, offers, plan)) == []
  {
    hide Places, Cancels;
    var b, o := OnlyIf(plan.bid, Cancel, bids), OnlyIf(plan.offer, Cancel, offers);
    PlacesConcat(Cancels(b), Cancels(o));
    CancelsPlaceNothing(b);
    CancelsPlaceNothing(o);
  }

  lemma RefreshPlaces(rungs: seq<Rung>, bids: seq<nat>, offers: seq<nat>, plan: Plan)
    ensures Places(Refresh(rungs, bids, offers, plan)) == AsPlaces(rungs)
  {
    hide Places, AsPlaces, Interleaved;
    InterleavedPlaces(rungs, OnlyIf(plan.bid, Replace, bids), OnlyIf(plan.offer, Replace, offers));
  }

  lemma {:induction false} CancelledMembers(ops: seq<GridOp>, i: nat)
    requires i < |ops| && ops[i].CancelOp?
    ensures CancelCount(ops, ops[i].orderId) >= 1
  {
    if i > 0 {
      CancelledMembers(ops[1..], i - 1);
    }
  }

  /** Whatever is cancelled after some order was placed belongs to a replaced side: withdrawn sides go first. */
  lemma WithdrawalsComeFirst(bidLevels: seq<Level>, offerLevels: seq<Level>, mid: real, tick: real,
                             book: seq<Resting>, plan: Plan, i: nat, j: nat)
    requires tick > 0.0 && Distinct(book)
    requires var ops := Ops(bidLevels, offerLevels, mid, tick, book, plan);
             i < j < |ops| && ops[i].PlaceOp? && ops[j].CancelOp?
    ensures var id := Ops(bidLevels, offerLevels, mid, tick, book, plan)[j].orderId;
            (plan.bid.Replace? && Rests(book, Bid, id)) || (plan.offer.Replace? && Rests(book, Offer, id))
  {
    var ops := Ops(bidLevels, offerLevels, mid, tick, book, plan);
    var bids, offers := SideQueue(book, Bid, mid), SideQueue(book, Offer, mid);
    var rungs := TightestFirst(NewRungs(bidLevels, offerLevels, mid, tick, plan));
    AfterPlaceRefresh(rungs, bids, offers, plan, i, j);
    QueueCounted(book, Bid, mid, ops[j].orderId);
    QueueCounted(book, Offer, mid, ops[j].orderId);
  }

  lemma AfterPlaceRefresh(rungs: seq<Rung>, bids: seq<nat>, offers: seq<nat>, plan: Plan, i: nat, j: nat)
    requires var ops := Withdrawals(bids, offers, plan) + Refresh(rungs, bids, offers, plan);
             i < j < |ops| && ops[i].PlaceOp? && ops[j].CancelOp?
    ensures var id := (Withdrawals(bids, offers, plan) + Refresh(rungs, bids, offers, plan))[j].orderId;
            (plan.bid.Replace? && Occurs(bids, id) > 0) || (plan.offer.Replace? && Occurs(offers, id) > 0)
  {
    WithdrawalsOnlyCancel(bids, offers, plan);
    hide Withdrawals, Refresh, CancelCount, Occurs;
    var first, tail := Withdrawals(bids, offers, plan), Refresh(rungs, bids, offers, plan);
    assert i >= |first| && (first + tail)[j] == tail[j - |first|];
    CancelledMembers(tail, j - |first|);
    OpsCancelCount(rungs, bids, offers, plan, tail[j - |first|].orderId);
  }

  lemma WithdrawalsOnlyCancel(bids: seq<nat>, offers: seq<nat>, plan: Plan)
    ensures forall x :: 0 <= x < |Withdrawals(bids, offers, plan)| ==> Withdrawals(bids, offers, plan)[x].CancelOp?
  {
  }

  // Counts after a prefix

  ghost function SideIds(book: seq<Resting>, side: Side): set<nat> {
    set o | o in book && o.side == side :: o.id
  }

  ghost function Effect(op: GridOp, side: Side, mine: set<nat>): int {
    match op
    case CancelOp(id, _) => if id in mine then -1 else 0
    case PlaceOp(s, _, _) => if s == side then 1 else 0
  }

  /** Net change of a side's order count, `mine` being the ids resting on it. */
  ghost function Tally(ops: seq<GridOp>, side: Side, mine: set<nat>): int {
    if ops == [] then 0 else Effect(ops[0], side, mine) + Tally(ops[1..], side, mine)
  }

  lemma {:induction false} TallyConcat(a: seq<GridOp>, b: seq<GridOp>, side: Side, mine: set<nat>)
    ensures Tally(a + b, side, mine) == Tally(a, side, mine) + Tally(b, side, mine)
  {
    if a == [] {
      assert a + b == b;
    } else {
      TallyConcat(a[1..], b, side, mine);
      assert (a + b)[1..] == a[1..] + b;
    }
  }

  lemma {:induction false} TallyCancels(ids: seq<nat>, k: nat, side: Side, mine: set<nat>)
    requires k <= |ids|
    requires (forall id :: id in ids ==> id in mine) || (forall id :: id in ids ==> id !in mine)
    ensures Tally(Cancels(ids)[..k], side, mine) == if forall id :: id in ids ==> id in mine then -(k as int) else 0
  {
    if k > 0 {
      assert Cancels(ids)[..k][1..] == Cancels(ids[1..])[..k - 1];
      assert ids == [ids[0]] + ids[1..];
      TallyCancels(ids[1..], k - 1, side, mine);
    }
  }

  function RungsOn(rungs: seq<Rung>, side: Side): nat {
    if rungs == [] then 0 else (if rungs[0].side == side then 1 else 0) + RungsOn(rungs[1..], side)
  }

  function MinNat(a: nat, b: nat): nat {
    if a <= b then a else b
  }

  function MaxNat(a: nat, b: nat): nat {
    if a >= b then a else b
  }

  /**
   A side moving from `olds` to `news` orders never holds more than the larger nor fewer than the smaller
   of the two, save for the one order a growing or equal side has cancelled but not yet re-placed.
   */
  ghost predicate WithinBounds(olds: nat, news: nat, change: int, done: bool) {
    && MinNat(olds, news) - (if 0 < olds <= news then 1 else 0) <= olds + change <= MaxNat(olds, news)
    && (done ==> olds + change == news)
  }

  lemma TailTally(own: seq<nat>, other: seq<nat>, ownFirst: bool, k: nat, side: Side, mine: set<nat>)
    requires k <= |own| + |other|
    requires (forall id :: id in own ==> id in mine) && (forall id :: id in other ==> id !in mine)
    ensures var ops := if ownFirst then Cancels(own) + Cancels(other) else Cancels(other) + Cancels(own);
            WithinBounds(|own|, 0, Tally(ops[..k], side, mine), k == |ops|)
  {
    var (a, b) := if ownFirst then (own, other) else (other, own);
    var ops := Cancels(a) + Cancels(b);
    if k <= |a| {
      assert ops[..k] == Cancels(a)[..k];
      TallyCancels(a, k, side, mine);
    } else {
      assert ops[..k] == Cancels(a)[..|a|] + Cancels(b)[..k - |a|];
      TallyConcat(Cancels(a)[..|a|], Cancels(b)[..k - |a|], side, mine);
      TallyCancels(a, |a|, side, mine);
      TallyCancels(b, k - |a|, side, mine);
    }
  }

  ghost predicate QueuesMatch(side: Side, bids: seq<nat>, offers: seq<nat>, mine: set<nat>) {
    && (forall id :: id in bids ==> (id in mine <==> side.Bid?))
    && (forall id :: id in offers ==> (id in mine <==> side.Offer?))
  }

  lemma {:induction false} InterleavedTally(rungs: seq<Rung>, bids: seq<nat>, offers: seq<nat>, side: Side, mine: set<nat>, k: nat)
    requires k <= |Interleaved(rungs, bids, offers)| && QueuesMatch(side, bids, offers, mine)
    ensures WithinBounds(|Own(side, bids, offers)|, RungsOn(rungs, side), Tally(Interleaved(rungs, bids, offers)[..k], side, mine),
                         k == |Interleaved(rungs, bids, offers)|)
    decreases |rungs|
  {
    if rungs == [] {
      TailTally(Own(side, bids, offers), if side.Bid? then offers else bids, side.Bid?, k, side, mine);
    } else {
      hide Tally, WithinBounds, QueuesMatch, PairedWith, Cancels;
      var own, queues := rungs[0].side, QueuesAfter(rungs[0].side, bids, offers);
      var head := Head(rungs[0], Own(own, bids, offers));
      var tail := Interleaved(rungs[1..], queues.0, queues.1);
      assert Interleaved(rungs, bids, offers) == head + tail;
      QueuesMatchOn(own, side, bids, offers, mine);
      InterleavedTally(rungs[1..], queues.0, queues.1, side, mine, if k <= |head| then 0 else k - |head|);
      OwnAfter(own, side, bids, offers);
      HeadBounds(rungs[0], Own(own, bids, offers), tail, side, mine, k, |Own(side, bids, offers)|, RungsOn(rungs[1..], side));
    }
  }

  /** A rung's pair: the old order it replaces, if any is left, and its place. */
  function Head(rung: Rung, queue: seq<nat>): seq<GridOp> {
    PairedWith(queue) + [PlaceRung(rung)]
  }

  lemma OwnAfter(drained: Side, side: Side, bids: seq<nat>, offers: seq<nat>)
    ensures var queues := QueuesAfter(drained, bids, offers);
            Own(side, queues.0, queues.1) == if drained == side then Rest(Own(side, bids, offers)) else Own(side, bids, offers)
  {
  }

  lemma HeadBounds(rung: Rung, queue: seq<nat>, tail: seq<GridOp>, side: Side, mine: set<nat>, k: nat, olds: nat, news: nat)
    requires forall id :: id in queue ==> (id in mine <==> rung.side == side)
    requires rung.side == side ==> olds == |queue|
    requires k <= |Head(rung, queue)| + |tail|
    requires var rest := if k <= |Head(rung, queue)| then 0 else k - |Head(rung, queue)|;
             WithinBounds(if rung.side == side then |Rest(queue)| else olds, news, Tally(tail[..rest], side, mine), rest == |tail|)
    ensures WithinBounds(olds, if rung.side == side then news + 1 else news, Tally((Head(rung, queue) + tail)[..k], side, mine),
                         k == |Head(rung, queue)| + |tail|)
  {
    var head := Head(rung, queue);
    var here := if k <= |head| then k else |head|;
    TallySplit(head, tail, k, side, mine);
    HeadTally(rung, queue, here, side, mine);
    assert tail[..0] == [] && Tally([], side, mine) == 0;
    hide Tally, WithinBounds;
    BoundsAdd(rung.side == side, queue == [], olds, news, here, k == |head| + |tail|, k - here == |tail|,
              Tally(tail[..k - here], side, mine));
  }

  lemma QueuesMatchOn(drained: Side, side: Side, bids: seq<nat>, offers: seq<nat>, mine: set<nat>)
    requires QueuesMatch(side, bids, offers, mine)
    ensures var queues := QueuesAfter(drained, bids, offers); QueuesMatch(side, queues.0, queues.1, mine)
    ensures forall id :: id in Own(drained, bids, offers) ==> (id in mine <==> drained == side)
  {
  }

  /** One rung's pair in front of operations that keep the bounds. */
  lemma BoundsAdd(own: bool, empty: bool, olds: nat, news: nat, here: nat, done: bool, tailDone: bool, change: int)
    requires own ==> (empty <==> olds == 0)
    requires here <= if empty then 1 else 2
    requires here < (if empty then 1 else 2) ==> change == 0
    requires done ==> tailDone && here == if empty then 1 else 2
    requires WithinBounds(if own && !empty then olds - 1 else olds, news, change, tailDone)
    ensures var headChange := if !own || here == 0 then 0 else if empty then 1 else if here == 1 then -1 else 0;
            WithinBounds(olds, if own then news + 1 else news, headChange + change, done)
  {
  }

  lemma TallySplit(head: seq<GridOp>, tail: seq<GridOp>, k: nat, side: Side, mine: set<nat>)
    requires k <= |head| + |tail|
    ensures var here := if k <= |head| then k else |head|;
            Tally((head + tail)[..k], side, mine) == Tally(head[..here], side, mine) + Tally(tail[..k - here], side, mine)
  {
    var here := if k <= |head| then k else |head|;
    assert (head + tail)[..k] == head[..here] + tail[..k - here];
    TallyConcat(head[..here], tail[..k - here], side, mine);
  }

  lemma HeadTally(rung: Rung, queue: seq<nat>, k: nat, side: Side, mine: set<nat>)
    requires k <= |PairedWith(queue)| + 1
    requires forall id :: id in queue ==> (id in mine <==> rung.side == side)
    ensures var head := PairedWith(queue) + [PlaceRung(rung)];
            Tally(head[..k], side, mine) ==
              if rung.side != side || k == 0 then 0
              else if queue == [] then 1
              else if k == 1 then -1 else 0
  {
    var place := PlaceRung(rung);
    var head := PairedWith(queue) + [place];
    if k > 0 {
      if queue == [] {
        assert head[..k] == [place];
      } else if k == 1 {
        assert head[..k] == [CancelOp(queue[0], false)];
      } else {
        assert head[..k] == [CancelOp(queue[0], false)] + [place];
        TallyConcat([CancelOp(queue[0], false)], [place], side, mine);
      }
    }
  }
}
