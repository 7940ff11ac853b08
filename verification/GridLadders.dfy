/** The operations of a refresh in terms of the ladders' levels and the book: what is placed, and what is cancelled first. */
module GridLadders {
  import opened Wrappers
  import opened StableSort
  import opened GridPricing
  import opened GridOps
  import opened GridExecution
  import opened GridBook

  // What is placed

  /** A level of one side's ladder. */
  type Slot = (Side, Level)

  function Slots(side: Side, levels: seq<Level>): (r: seq<Slot>)
    ensures |r| == |levels| && forall i :: 0 <= i < |r| ==> r[i] == (side, levels[i])
  {
    seq(|levels|, i requires 0 <= i < |levels| => (side, levels[i]))
  }

  function Wanted(bidLevels: seq<Level>, offerLevels: seq<Level>, plan: Plan): seq<Slot> {
    (if plan.bid == Replace then Slots(Bid, bidLevels) else [])
    + (if plan.offer == Replace then Slots(Offer, offerLevels) else [])
  }

  function RungOf(mid: real, tick: real): Slot -> Rung
    requires tick > 0.0
  {
    (a: Slot) => Rung(Abs(a.1.deltaPercent), a.0, if tick > 0.0 then RungPrice(a.0, mid, a.1.deltaPercent, tick) else 0.0, a.1.quantity)
  }

  function Mapped<A, B>(f: A -> B, s: seq<A>): (r: seq<B>)
    ensures |r| == |s| && forall i :: 0 <= i < |r| ==> r[i] == f(s[i])
  {
    seq(|s|, i requires 0 <= i < |s| => f(s[i]))
  }

  lemma MappedFront<A, B>(f: A -> B, x: A, s: seq<A>)
    ensures Mapped(f, [x] + s) == [f(x)] + Mapped(f, s)
  {
  }

  lemma {:induction false} InsertMapped<A, B>(f: A -> B, x: A, s: seq<A>, key: B -> real, own: A -> real)
    requires forall a :: own(a) == key(f(a))
    ensures Insert(f(x), Mapped(f, s), key) == Mapped(f, Insert(x, s, own))
  {
    if s != [] && own(x) > own(s[0]) {
      var rest := Insert(x, s[1..], own);
      InsertMapped(f, x, s[1..], key, own);
      assert Mapped(f, s)[1..] == Mapped(f, s[1..]);
      assert Insert(f(x), Mapped(f, s), key) == [f(s[0])] + Mapped(f, rest);
      assert Insert(x, s, own) == [s[0]] + rest;
      hide Insert;
      MappedFront(f, s[0], rest);
    } else {
      MappedFront(f, x, s);
    }
  }

  lemma {:induction false} SortMapped<A, B>(f: A -> B, s: seq<A>, key: B -> real, own: A -> real)
    requires forall a :: own(a) == key(f(a))
    ensures Sort(Mapped(f, s), key) == Mapped(f, Sort(s, own))
  {
    if s != [] {
      SortMapped(f, s[1..], key, own);
      assert Mapped(f, s)[1..] == Mapped(f, s[1..]);
      InsertMapped(f, s[0], Sort(s[1..], own), key, own);
    } else {
      assert Mapped(f, s) == [] && Mapped(f, Sort(s, own)) == [];
    }
  }

  lemma NewRungsAreWanted(bidLevels: seq<Level>, offerLevels: seq<Level>, mid: real, tick: real, plan: Plan)
    requires tick > 0.0
    ensures NewRungs(bidLevels, offerLevels, mid, tick, plan) == Mapped(RungOf(mid, tick), Wanted(bidLevels, offerLevels, plan))
  {
    hide RungPrice;
    var f := RungOf(mid, tick);
    assert forall side, levels :: SideRungs(side, levels, mid, tick) == Mapped(f, Slots(side, levels));
  }

  /**
   What is placed, in order: one order for each level of the replaced sides and no other, at the level's own price and
   quantity, levels nearer to the mid first.
   */
  lemma PlacesTheLadders(bidLevels: seq<Level>, offerLevels: seq<Level>, mid: real, tick: real, book: seq<Resting>, plan: Plan)
    returns (levels: seq<Slot>)
    requires tick > 0.0
    ensures multiset(levels) ==
              (if plan.bid == Replace then multiset(Slots(Bid, bidLevels)) else multiset{})
              + (if plan.offer == Replace then multiset(Slots(Offer, offerLevels)) else multiset{})
    ensures var placed := Places(Ops(bidLevels, offerLevels, mid, tick, book, plan));
            && |placed| == |levels|
            && forall k :: 0 <= k < |placed| ==>
                 placed[k] == PlaceOp(levels[k].0, RungPrice(levels[k].0, mid, levels[k].1.deltaPercent, tick), levels[k].1.quantity)
    ensures forall k, l :: 0 <= k < l < |levels| ==> Abs(levels[k].1.deltaPercent) <= Abs(levels[l].1.deltaPercent)
  {
    hide RungPrice, Ops, Places, NewRungs;
    var own := (a: Slot) => Abs(a.1.deltaPercent);
    var key := (r: Rung) => r.distance;
    var wanted := Wanted(bidLevels, offerLevels, plan);
    var rungs := PlacesExactlyTheRungs(bidLevels, offerLevels, mid, tick, book, plan);
    NewRungsAreWanted(bidLevels, offerLevels, mid, tick, plan);
    SortMapped(RungOf(mid, tick), wanted, key, own);
    SortOrders(wanted, own);
    levels := Sort(wanted, own);
    PlacesAre(rungs);
    hide Sort, Insert;
  }

  lemma PlacesAre(rungs: seq<Rung>)
    ensures |AsPlaces(rungs)| == |rungs|
    ensures forall k :: 0 <= k < |rungs| ==> AsPlaces(rungs)[k] == PlaceOp(rungs[k].side, rungs[k].price, rungs[k].quantity)
  {
  }

  // What is cancelled first

  function Cancelled(op: GridOp, ids: set<nat>): (r: seq<nat>)
    ensures |r| <= 1
  {
    if op.CancelOp? && op.orderId in ids then [op.orderId] else []
  }

  /** The cancels among `ops` whose order is in `ids`, in order. */
  function CancelsAmong(ops: seq<GridOp>, ids: set<nat>): seq<nat> {
    if ops == [] then [] else Cancelled(ops[0], ids) + CancelsAmong(ops[1..], ids)
  }

  lemma Regroup(a: seq<nat>, b: seq<nat>, c: seq<nat>)
    ensures a + (b + c) == a + b + c
  {
  }

  lemma {:induction false} CancelsAmongConcat(a: seq<GridOp>, b: seq<GridOp>, ids: set<nat>)
    ensures CancelsAmong(a + b, ids) == CancelsAmong(a, ids) + CancelsAmong(b, ids)
  {
    hide Cancelled;
    if a == [] {
      assert a + b == b;
    } else {
      assert (a + b)[0] == a[0] && (a + b)[1..] == a[1..] + b;
      assert CancelsAmong(a + b, ids) == Cancelled(a[0], ids) + CancelsAmong(a[1..] + b, ids);
      assert CancelsAmong(a, ids) == Cancelled(a[0], ids) + CancelsAmong(a[1..], ids);
      CancelsAmongConcat(a[1..], b, ids);
      Regroup(Cancelled(a[0], ids), CancelsAmong(a[1..], ids), CancelsAmong(b, ids));
      hide CancelsAmong;
    }
  }

  lemma {:induction false} CancelsAmongCancels(queue: seq<nat>, ids: set<nat>, mine: bool)
    requires forall id :: id in queue ==> (id in ids <==> mine)
    ensures CancelsAmong(Cancels(queue), ids) == if mine then queue else []
  {
    if queue != [] {
      CancelsAmongCancels(queue[1..], ids, mine);
      assert Cancels(queue)[1..] == Cancels(queue[1..]);
      assert queue == [queue[0]] + queue[1..];
    }
  }

  lemma CancelsAmongHead(queue: seq<nat>, rung: Rung, ids: set<nat>)
    ensures CancelsAmong(Head(rung, queue), ids) == if queue != [] && queue[0] in ids then [queue[0]] else []
  {
    CancelsAmongConcat(PairedWith(queue), [PlaceRung(rung)], ids);
    assert CancelsAmong([PlaceRung(rung)], ids) == [];
    if queue != [] {
      assert PairedWith(queue)[1..] == [];
    }
  }

  /** The head of the drained queue, if it is of the side, and what is left of the side's queue make up that queue. */
  lemma QueueRejoins(drained: Side, side: Side, bids: seq<nat>, offers: seq<nat>, mine: set<nat>)
    requires QueuesMatch(side, bids, offers, mine)
    ensures var queue, queues := Own(drained, bids, offers), QueuesAfter(drained, bids, offers);
            (if queue != [] && queue[0] in mine then [queue[0]] else []) + Own(side, queues.0, queues.1) == Own(side, bids, offers)
  {
    QueuesMatchOn(drained, side, bids, offers, mine);
    var queue := Own(drained, bids, offers);
    assert queue != [] ==> queue[0] in queue && queue == [queue[0]] + queue[1..];
  }

  lemma {:induction false} InterleavedKeepsQueue(rungs: seq<Rung>, bids: seq<nat>, offers: seq<nat>, side: Side, mine: set<nat>)
    requires QueuesMatch(side, bids, offers, mine)
    ensures CancelsAmong(Interleaved(rungs, bids, offers), mine) == Own(side, bids, offers)
    decreases |rungs|
  {
    if rungs == [] {
      CancelsAmongConcat(Cancels(bids), Cancels(offers), mine);
      CancelsAmongCancels(bids, mine, side.Bid?);
      CancelsAmongCancels(offers, mine, side.Offer?);
    } else {
      hide CancelsAmong, PairedWith, Cancels, QueuesMatch, Own, QueuesAfter;
      var own, queues := rungs[0].side, QueuesAfter(rungs[0].side, bids, offers);
      var queue := Own(own, bids, offers);
      var tail := Interleaved(rungs[1..], queues.0, queues.1);
      assert Interleaved(rungs, bids, offers) == Head(rungs[0], queue) + tail;
      hide Interleaved, Head;
      QueuesMatchOn(own, side, bids, offers, mine);
      InterleavedKeepsQueue(rungs[1..], queues.0, queues.1, side, mine);
      CancelsAmongConcat(Head(rungs[0], queue), tail, mine);
      CancelsAmongHead(queue, rungs[0], mine);
      QueueRejoins(own, side, bids, offers, mine);
    }
  }

  lemma WithdrawalsKeepQueue(bids: seq<nat>, offers: seq<nat>, plan: Plan, side: Side, mine: set<nat>)
    requires QueuesMatch(side, bids, offers, mine)
    ensures CancelsAmong(Withdrawals(bids, offers, plan), mine) == if plan.On(side) == Cancel then Own(side, bids, offers) else []
  {
    var b, o := OnlyIf(plan.bid, Cancel, bids), OnlyIf(plan.offer, Cancel, offers);
    CancelsAmongConcat(Cancels(b), Cancels(o), mine);
    hide CancelsAmong, Cancels;
    CancelsAmongCancels(b, mine, side.Bid?);
    CancelsAmongCancels(o, mine, side.Offer?);
  }

  lemma RefreshKeepsQueue(rungs: seq<Rung>, bids: seq<nat>, offers: seq<nat>, plan: Plan, side: Side, mine: set<nat>)
    requires QueuesMatch(side, bids, offers, mine)
    ensures CancelsAmong(Refresh(rungs, bids, offers, plan), mine) == if plan.On(side) == Replace then Own(side, bids, offers) else []
  {
    hide CancelsAmong, Interleaved;
    InterleavedKeepsQueue(rungs, OnlyIf(plan.bid, Replace, bids), OnlyIf(plan.offer, Replace, offers), side, mine);
  }

  lemma QueuesAreMine(book: seq<Resting>, side: Side, mid: real)
    requires Distinct(book)
    ensures QueuesMatch(side, SideQueue(book, Bid, mid), SideQueue(book, Offer, mid), SideIds(book, side))
  {
    QueueMembers(book, Bid, mid);
    QueueMembers(book, Offer, mid);
    hide SideQueue, SideIds;
  }

  /** The cancels of a side not kept are its resting orders nearest to the mid first; a kept side has none. */
  lemma CancelsAreTheQueue(bidLevels: seq<Level>, offerLevels: seq<Level>, mid: real, tick: real, book: seq<Resting>, plan: Plan, side: Side)
    requires tick > 0.0 && Distinct(book)
    ensures CancelsAmong(Ops(bidLevels, offerLevels, mid, tick, book, plan), SideIds(book, side))
            == if plan.On(side) == Keep then [] else SideQueue(book, side, mid)
  {
    hide SideQueue, CancelsAmong, TightestFirst, NewRungs, SideIds, Withdrawals, Refresh, QueuesMatch;
    var bids, offers := SideQueue(book, Bid, mid), SideQueue(book, Offer, mid);
    var rungs := TightestFirst(NewRungs(bidLevels, offerLevels, mid, tick, plan));
    var mine := SideIds(book, side);
    QueuesAreMine(book, side, mid);
    CancelsAmongConcat(Withdrawals(bids, offers, plan), Refresh(rungs, bids, offers, plan), mine);
    WithdrawalsKeepQueue(bids, offers, plan, side, mine);
    RefreshKeepsQueue(rungs, bids, offers, plan, side, mine);
  }

  lemma {:induction false} CancelsInOrder(ops: seq<GridOp>, ids: set<nat>, i: nat, j: nat) returns (a: nat, b: nat)
    requires i < j < |ops| && ops[i].CancelOp? && ops[j].CancelOp? && ops[i].orderId in ids && ops[j].orderId in ids
    ensures var among := CancelsAmong(ops, ids); a < b < |among| && among[a] == ops[i].orderId && among[b] == ops[j].orderId
  {
    var hit, rest := Cancelled(ops[0], ids), CancelsAmong(ops[1..], ids);
    assert CancelsAmong(ops, ids) == hit + rest;
    if i > 0 {
      hide CancelsAmong, Cancelled;
      assert ops[1..][i - 1] == ops[i] && ops[1..][j - 1] == ops[j];
      a, b := CancelsInOrder(ops[1..], ids, i - 1, j - 1);
      a, b := Shifted(hit, rest, a), Shifted(hit, rest, b);
    } else {
      assert hit == [ops[0].orderId];
      hide CancelsAmong, Cancelled;
      assert ops[1..][j - 1] == ops[j];
      b := CancelIsAmong(ops[1..], ids, j - 1);
      a, b := 0, Shifted(hit, rest, b);
    }
  }

  function Shifted(head: seq<nat>, rest: seq<nat>, x: nat): (y: nat)
    requires x < |rest|
    ensures y == x + |head| && (head + rest)[y] == rest[x]
  {
    x + |head|
  }

  lemma {:induction false} CancelIsAmong(ops: seq<GridOp>, ids: set<nat>, j: nat) returns (b: nat)
    requires j < |ops| && ops[j].CancelOp? && ops[j].orderId in ids
    ensures b < |CancelsAmong(ops, ids)| && CancelsAmong(ops, ids)[b] == ops[j].orderId
  {
    var hit, rest := Cancelled(ops[0], ids), CancelsAmong(ops[1..], ids);
    assert CancelsAmong(ops, ids) == hit + rest;
    if j == 0 {
      b := 0;
    } else {
      hide CancelsAmong, Cancelled;
      assert ops[1..][j - 1] == ops[j];
      b := CancelIsAmong(ops[1..], ids, j - 1);
      b := Shifted(hit, rest, b);
    }
  }

  lemma QueueByDistance(book: seq<Resting>, side: Side, mid: real, a: nat, b: nat, x: Resting, y: Resting)
    requires Distinct(book) && a < b < |SideQueue(book, side, mid)| && x in book && y in book
    requires SideQueue(book, side, mid)[a] == x.id && SideQueue(book, side, mid)[b] == y.id
    ensures Abs(x.price - mid) <= Abs(y.price - mid)
  {
    var sorted := Sort(OnSide(book, side), Distance(mid));
    SortOrders(OnSide(book, side), Distance(mid));
    SortKeepsMembers(OnSide(book, side), Distance(mid));
    assert sorted[a] in sorted && sorted[b] in sorted;
    assert sorted[a] == x && sorted[b] == y;
    hide Sort;
  }

  /** Of two resting orders of one side, the one nearer to the mid is not cancelled after the other. */
  lemma NearestCancelledFirst(bidLevels: seq<Level>, offerLevels: seq<Level>, mid: real, tick: real, book: seq<Resting>, plan: Plan,
                              i: nat, j: nat, x: Resting, y: Resting)
    requires tick > 0.0 && Distinct(book) && x in book && y in book && x.side == y.side
    requires var ops := Ops(bidLevels, offerLevels, mid, tick, book, plan);
             i < j < |ops| && ops[i].CancelOp? && ops[j].CancelOp? && ops[i].orderId == x.id && ops[j].orderId == y.id
    ensures Abs(x.price - mid) <= Abs(y.price - mid)
  {
    hide Ops, SideQueue, CancelsAmong;
    var ops := Ops(bidLevels, offerLevels, mid, tick, book, plan);
    assert x.id in SideIds(book, x.side) && y.id in SideIds(book, x.side);
    var a, b := CancelsInOrder(ops, SideIds(book, x.side), i, j);
    CancelsAreTheQueue(bidLevels, offerLevels, mid, tick, book, plan, x.side);
    QueueByDistance(book, x.side, mid, a, b, x, y);
  }

  lemma SideIdsSplit(book: seq<Resting>, side: Side)
    requires book != [] && Distinct(book)
    ensures SideIds(book, side) == (if book[0].side == side then {book[0].id} else {}) + SideIds(book[1..], side)
    ensures book[0].id !in SideIds(book[1..], side) && Distinct(book[1..])
  {
    assert forall o :: o in book <==> o == book[0] || o in book[1..];
  }

  /** A side's count is the number of its distinct orders. */
  lemma {:induction false} CountIsIds(book: seq<Resting>, side: Side)
    requires Distinct(book)
    ensures SideCount(book, side) == |SideIds(book, side)|
  {
    if book != [] {
      assert |OnSide(book, side)| == (if book[0].side == side then 1 else 0) + |OnSide(book[1..], side)|;
      SideIdsSplit(book, side);
      hide Distinct, SideIds, OnSide;
      CountIsIds(book[1..], side);
    }
  }
}
