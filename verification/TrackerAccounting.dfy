/**
 Runs of the order tracker: capacity accounting and the queue of failed submits.

 A run carries, beside the tracker, what a reader of the whole history would know: how each order
 stood when first tracked, how much of it settled since, and which failed submits were noted and adopted.
 */
module TrackerAccounting {
  import opened Wrappers
  import opened Decimals
  import opened MapSums
  import opened OrderTracking

  datatype Event =
    | Begin(market: string)
    | End(market: string)
    | Note(submit: FailedSubmit)
    | Adopt(listed: ServerOrder)
    | Track(orderId: nat, submit: FailedSubmit)
    | Import(order: ServerOrder)
    | Adopted(proposalId: string, orderId: nat, quantity: Decimal)
    | Reserve(proposalId: string)
    | Settle(proposalId: string)
    | Fail(proposalId: string)
    | Cancel(orderId: nat)
    | CancelEverything

  function Apply(cfg: Config, t: Tracker, e: Event, now: nat): Tracker {
    match e
    case Begin(m) => BeginPlacement(t, m)
    case End(m) => EndPlacement(t, m)
    case Note(s) => NoteSubmitFailed(t, s, now)
    case Adopt(o) => AdoptFailedSubmit(t, o, now)
    case Track(id, s) => TrackOrder(t, id, s)
    case Import(o) => AfterImport(cfg, t, o)
    case Adopted(p, id, q) => Record(t, p, id, q)
    case Reserve(p) => TryReserve(t, p)
    case Settle(p) => MarkSettled(t, p)
    case Fail(p) => MarkFailed(t, p)
    case Cancel(id) => CancelOrder(t, id)
    case CancelEverything => CancelAll(t)
  }

  /** The order an event newly tracks. */
  function NewlyTracked(cfg: Config, t: Tracker, e: Event, now: nat): Option<nat> {
    match e
    case Track(id, _) => if id in t.orders then None else Some(id)
    case Adopt(o) => if Adoptable(t, o, now).Some? then Some(o.orderId) else None
    case Import(o) => if o.orderId in t.orders || ImportProblem(cfg, o).Some? then None else Some(o.orderId)
    case _ => None
  }

  /** Quantities reserved on order `id`, by proposal. */
  ghost function ReservedFor(entries: map<string, Entry>, id: nat): map<string, real> {
    map p | p in entries && entries[p].reserved && entries[p].orderId == id :: entries[p].quantity
  }

  ghost predicate Unreserved(t: Tracker, id: nat) {
    Sum(ReservedFor(t.entries, id)) == 0.0
  }

  /**
   What callers guarantee: an id is tracked once, no entry has a negative quantity, and nothing is reserved on
   an order before it is tracked. RFQ entries, of order 0, are free.
   */
  ghost predicate Legal(cfg: Config, t: Tracker, e: Event, now: nat) {
    && (e.Track? ==> e.orderId !in t.orders)
    && (e.Adopted? ==> e.quantity >= 0.0)
    && var id := NewlyTracked(cfg, t, e, now); id.Some? && id.value != 0 ==> Unreserved(t, id.value)
  }

  datatype Base = Base(quantity: Decimal, settled: Decimal, pending: Decimal)

  datatype Run = Run(
    t: Tracker, now: nat,
    base: map<nat, Base>,
    filled: map<nat, real>,
    noted: multiset<FailedSubmit>,
    adopted: multiset<FailedSubmit>)

  const START := Run(EMPTY, 0, map[], map[], multiset{}, multiset{})

  function Filled(r: Run, id: nat): real {
    if id in r.filled then r.filled[id] else 0.0
  }

  /** The entry whose amount a settle event moves from pending to settled on a tracked order. */
  function FilledBy(t: Tracker, e: Event): Option<Entry> {
    if e.Settle? && e.proposalId in t.entries && t.entries[e.proposalId].reserved && t.entries[e.proposalId].orderId in t.orders
    then Some(t.entries[e.proposalId]) else None
  }

  function Next(cfg: Config, r: Run, e: Event, now: nat): Run {
    var t := Apply(cfg, r.t, e, now);
    var entry := FilledBy(r.t, e);
    var taken := if e.Adopt? then Adoptable(r.t, e.listed, now) else None;
    Run(t, now,
        r.base + map id | id in t.orders && id !in r.t.orders ::
                   Base(t.orders[id].quantity, t.orders[id].settled, t.orders[id].pending),
        if entry.Some? then r.filled[entry.value.orderId := Filled(r, entry.value.orderId) + entry.value.quantity] else r.filled,
        if e.Note? then r.noted + multiset{e.submit} else r.noted,
        if taken.Some? then r.adopted + multiset{Prune(r.t.failed, now)[taken.value].submit} else r.adopted)
  }

  datatype Timed = Timed(event: Event, now: nat)

  /** The run after a history of events. */
  function After(cfg: Config, history: seq<Timed>): Run {
    if history == [] then START
    else
      var last := history[|history| - 1];
      Next(cfg, After(cfg, history[..|history| - 1]), last.event, last.now)
  }

  /** Every event is legal where it happens, and the clock never goes back. */
  ghost predicate LegalHistory(cfg: Config, history: seq<Timed>) {
    history == [] ||
    var before := history[..|history| - 1]; var last := history[|history| - 1];
    && LegalHistory(cfg, before)
    && Legal(cfg, After(cfg, before).t, last.event, last.now)
    && After(cfg, before).now <= last.now
  }

  // Capacity accounting

  ghost predicate Balanced(o: TrackedOrder, b: Base, filled: real, reserved: map<string, real>) {
    && o.quantity == b.quantity
    && b.settled >= 0.0 && b.pending >= 0.0 && filled >= 0.0
    && NonNegative(reserved)
    && o.pending == b.pending + Sum(reserved)
    && o.settled == b.settled + filled
    && o.settled + o.pending <= Max(b.quantity, b.settled + b.pending)
    && (Sum(reserved) > 0.0 ==> o.settled + o.pending <= o.quantity)
  }

  ghost predicate OrderBooked(r: Run, id: nat) {
    && id in r.t.orders && id in r.base
    && Balanced(r.t.orders[id], r.base[id], Filled(r, id), ReservedFor(r.t.entries, id))
  }

  ghost predicate EntryLegal(t: Tracker, p: string) {
    p in t.entries ==> t.entries[p].quantity >= 0.0
  }

  ghost predicate Accounted(r: Run) {
    && (forall p :: EntryLegal(r.t, p))
    && (forall id :: id in r.t.orders && id != 0 ==> OrderBooked(r, id))
    && (forall id :: id in r.filled && id != 0 ==> id in r.t.orders)
  }

  lemma CapacityExact(o: TrackedOrder, b: Base, filled: real, reserved: map<string, real>, q: Decimal)
    requires Balanced(o, b, filled, reserved) && q >= 0.0
    ensures Sum(reserved) >= 0.0
    ensures var left := RemainingCapacity(o);
            left.Some? && q <= left.value <==> o.settled + o.pending + q <= o.quantity
  {
    SumMonotone(reserved, reserved);
  }

  lemma ReserveBalances(o: TrackedOrder, b: Base, filled: real, reserved: map<string, real>, p: string, q: Decimal)
    requires Balanced(o, b, filled, reserved) && p !in reserved && q >= 0.0
    ensures var left := RemainingCapacity(o);
            left.Some? && q <= left.value <==> o.settled + o.pending + q <= o.quantity
    ensures o.settled + o.pending + q <= o.quantity ==>
              && SatAdd(o.pending, q) == o.pending + q
              && Balanced(o.(pending := SatAdd(o.pending, q)), b, filled, reserved[p := q])
  {
    CapacityExact(o, b, filled, reserved, q);
    SumInsert(reserved, p, q);
    assert NonNegative(reserved[p := q]);
  }

  lemma CloseBalances(o: TrackedOrder, b: Base, filled: real, reserved: map<string, real>, p: string, q: Decimal)
    requires Balanced(o, b, filled, reserved) && p in reserved && q == reserved[p]
    ensures MaxZero(SatSub(o.pending, q)) == o.pending - q && SatAdd(o.settled, q) == o.settled + q
    ensures Balanced(o.(pending := o.pending - q), b, filled, reserved - {p})
    ensures Balanced(o.(pending := o.pending - q, settled := o.settled + q), b, filled + q, reserved - {p})
  {
    SumRemove(reserved, p);
    SumMonotone(reserved - {p}, reserved);
  }

  lemma OtherOrdersUntouched(entries: map<string, Entry>, p: string, e: Entry, id: nat)
    requires p in entries ==> !entries[p].reserved || entries[p].orderId != id
    ensures ReservedFor(entries - {p}, id) == ReservedFor(entries, id)
    ensures !e.reserved || e.orderId != id ==> ReservedFor(entries[p := e], id) == ReservedFor(entries, id)
  {
  }

  lemma ReserveKeepsOrder(cfg: Config, r: Run, p: string, now: nat, id: nat)
    requires EntryLegal(r.t, p) && OrderBooked(r, id) && id != 0
    ensures OrderBooked(Next(cfg, r, Reserve(p), now), id)
  {
    if ReserveOutcome(r.t, p) == Reserved {
      var e := r.t.entries[p];
      var reserved := ReservedFor(r.t.entries, id);
      OtherOrdersUntouched(r.t.entries, p, e.(reserved := true), id);
      if id == e.orderId {
        assert ReservedFor(r.t.entries[p := e.(reserved := true)], id) == reserved[p := e.quantity];
        ReserveBalances(r.t.orders[id], r.base[id], Filled(r, id), reserved, p, e.quantity);
      }
    }
  }

  predicate Closes(t: Tracker, p: string, id: nat) {
    p in t.entries && t.entries[p].orderId == id && t.entries[p].reserved
  }

  /** What is left of order `id` when its entry closes by settling or failing. */
  function ClosedOrder(o: TrackedOrder, q: Decimal, settles: bool): TrackedOrder {
    o.(pending := MaxZero(SatSub(o.pending, q)), settled := if settles then SatAdd(o.settled, q) else o.settled)
  }

  lemma CloseTracker(cfg: Config, t: Tracker, e: Event, now: nat, id: nat)
    requires id in t.orders && (e.Settle? || e.Fail?)
    ensures var t' := Apply(cfg, t, e, now); var p := e.proposalId;
            && t'.orders.Keys == t.orders.Keys && t'.entries == t.entries - {p}
            && t'.orders[id] == if Closes(t, p, id) then ClosedOrder(t.orders[id], t.entries[p].quantity, e.Settle?) else t.orders[id]
  {
    hide SatAdd, SatSub, MaxZero;
  }

  lemma CloseFilled(cfg: Config, r: Run, e: Event, now: nat, id: nat)
    requires id in r.t.orders && (e.Settle? || e.Fail?)
    ensures Filled(Next(cfg, r, e, now), id) ==
              Filled(r, id) + if e.Settle? && Closes(r.t, e.proposalId, id) then r.t.entries[e.proposalId].quantity else 0.0
  {
    hide Apply;
  }

  /** What settling or failing does to the books of order `id`. */
  lemma CloseNext(cfg: Config, r: Run, e: Event, now: nat, id: nat)
    requires id in r.t.orders && id in r.base && (e.Settle? || e.Fail?)
    ensures var r' := Next(cfg, r, e, now); var p := e.proposalId; var o := r.t.orders[id];
            && id in r'.t.orders && id in r'.base && r'.base[id] == r.base[id]
            && r'.t.entries == r.t.entries - {p}
            && (if Closes(r.t, p, id) then
                  var q := r.t.entries[p].quantity;
                  r'.t.orders[id] == ClosedOrder(o, q, e.Settle?) && Filled(r', id) == Filled(r, id) + if e.Settle? then q else 0.0
                else r'.t.orders[id] == o && Filled(r', id) == Filled(r, id))
  {
    CloseTracker(cfg, r.t, e, now, id);
    CloseFilled(cfg, r, e, now, id);
    hide Apply, Filled, ClosedOrder, FilledBy, Closes;
  }

  lemma CloseKeepsOrder(cfg: Config, r: Run, e: Event, now: nat, id: nat)
    requires OrderBooked(r, id) && (e.Settle? || e.Fail?)
    ensures OrderBooked(Next(cfg, r, e, now), id)
  {
    hide Next, Balanced, ReservedFor, Filled;
    CloseNext(cfg, r, e, now, id);
    var p := e.proposalId;
    if Closes(r.t, p, id) {
      ClosedReserved(r.t.entries, p);
      CloseBalances(r.t.orders[id], r.base[id], Filled(r, id), ReservedFor(r.t.entries, id), p, r.t.entries[p].quantity);
    } else {
      OtherOrdersUntouched(r.t.entries, p, Entry(id, 0.0, false), id);
    }
  }

  lemma ClosedReserved(entries: map<string, Entry>, p: string)
    requires p in entries && entries[p].reserved
    ensures var reserved := ReservedFor(entries, entries[p].orderId);
            p in reserved && reserved[p] == entries[p].quantity && ReservedFor(entries - {p}, entries[p].orderId) == reserved - {p}
  {
  }

  lemma NothingFilled(r: Run, id: nat)
    requires Accounted(r) && id != 0 && id !in r.t.orders
    ensures Filled(r, id) == 0.0 && NonNegative(ReservedFor(r.t.entries, id))
  {
    forall p | p in r.t.entries ensures r.t.entries[p].quantity >= 0.0 {
      assert EntryLegal(r.t, p);
    }
  }

  /** An order newly tracked is on the books exactly when nothing was reserved on it before. */
  lemma NewOrderBookedExactly(cfg: Config, r: Run, e: Event, now: nat, id: nat)
    requires Accounted(r) && id != 0 && NewlyTracked(cfg, r.t, e, now) == Some(id)
    ensures OrderBooked(Next(cfg, r, e, now), id) <==> Unreserved(r.t, id)
  {
    NewOrder(cfg, r.t, e, now, id);
    hide Accounted, Apply, ReservedFor, Balanced, NewlyTracked;
    NothingFilled(r, id);
    BalancedAtStart(Next(cfg, r, e, now).t.orders[id], ReservedFor(r.t.entries, id));
  }

  lemma BalancedAtStart(o: TrackedOrder, reserved: map<string, real>)
    requires o.settled >= 0.0 && o.pending >= 0.0 && NonNegative(reserved)
    ensures Balanced(o, Base(o.quantity, o.settled, o.pending), 0.0, reserved) <==> Sum(reserved) == 0.0
  {
  }

  /** An order just tracked has nothing negative on it and changes no entry. */
  lemma NewOrder(cfg: Config, t: Tracker, e: Event, now: nat, id: nat)
    requires NewlyTracked(cfg, t, e, now) == Some(id)
    ensures id !in t.orders && id in Apply(cfg, t, e, now).orders && (e.Track? || e.Adopt? || e.Import?)
    ensures var t' := Apply(cfg, t, e, now);
            t'.entries == t.entries && t'.orders[id].settled >= 0.0 && t'.orders[id].pending >= 0.0
  {
    hide Prune, FirstMatch;
  }

  lemma NewlyTrackedIs(cfg: Config, t: Tracker, e: Event, now: nat, id: nat)
    requires id !in t.orders && id in Apply(cfg, t, e, now).orders
    ensures NewlyTracked(cfg, t, e, now) == Some(id)
  {
    hide Prune, FirstMatch, RemainingCapacity;
  }

  lemma PlainStep(cfg: Config, t: Tracker, e: Event, now: nat, id: nat)
    requires id in t.orders && (e.Track? ==> e.orderId !in t.orders) && !e.Reserve? && !e.Settle? && !e.Fail?
    ensures var t' := Apply(cfg, t, e, now);
            && id in t'.orders && t'.orders[id] == t.orders[id].(active := t'.orders[id].active)
            && t'.entries == if e.Adopted? then Record(t, e.proposalId, e.orderId, e.quantity).entries else t.entries
  {
  }

  lemma PlainStepKeepsOrder(cfg: Config, r: Run, e: Event, now: nat, id: nat)
    requires OrderBooked(r, id) && (e.Track? ==> e.orderId !in r.t.orders) && !e.Reserve? && !e.Settle? && !e.Fail?
    ensures OrderBooked(Next(cfg, r, e, now), id)
  {
    var r' := Next(cfg, r, e, now);
    PlainStep(cfg, r.t, e, now, id);
    assert r'.base[id] == r.base[id] && r'.filled == r.filled;
    if e.Adopted? && e.proposalId !in r.t.entries {
      OtherOrdersUntouched(r.t.entries, e.proposalId, Entry(e.orderId, e.quantity, false), id);
    }
  }

  lemma StepKeepsOrder(cfg: Config, r: Run, e: Event, now: nat, id: nat)
    requires Accounted(r) && Legal(cfg, r.t, e, now) && id != 0 && id in Next(cfg, r, e, now).t.orders
    ensures OrderBooked(Next(cfg, r, e, now), id)
  {
    if id !in r.t.orders {
      NewlyTrackedIs(cfg, r.t, e, now, id);
      NewOrderBookedExactly(cfg, r, e, now, id);
    } else {
      assert OrderBooked(r, id);
      match e {
        case Reserve(p) => ReserveKeepsOrder(cfg, r, p, now, id);
        case Settle(_) => CloseKeepsOrder(cfg, r, e, now, id);
        case Fail(_) => CloseKeepsOrder(cfg, r, e, now, id);
        case _ => PlainStepKeepsOrder(cfg, r, e, now, id);
      }
    }
  }

  lemma OrdersStayTracked(cfg: Config, t: Tracker, e: Event, now: nat)
    ensures t.orders.Keys <= Apply(cfg, t, e, now).orders.Keys
  {
    hide Prune, FirstMatch, RemainingCapacity;
  }

  lemma EntriesStayLegal(cfg: Config, t: Tracker, e: Event, now: nat, p: string)
    requires EntryLegal(t, p) && (e.Adopted? ==> e.quantity >= 0.0)
    ensures EntryLegal(Apply(cfg, t, e, now), p)
  {
    hide Prune, FirstMatch, RemainingCapacity;
  }

  lemma StepKeepsEntries(cfg: Config, r: Run, e: Event, now: nat)
    requires Accounted(r) && Legal(cfg, r.t, e, now)
    ensures r.t.orders.Keys <= Next(cfg, r, e, now).t.orders.Keys
    ensures forall p :: EntryLegal(Next(cfg, r, e, now).t, p)
    ensures forall id :: id in Next(cfg, r, e, now).filled && id != 0 ==> id in r.t.orders
  {
    hide Apply;
    OrdersStayTracked(cfg, r.t, e, now);
    forall p ensures EntryLegal(Next(cfg, r, e, now).t, p) {
      EntriesStayLegal(cfg, r.t, e, now, p);
    }
  }

  /**
   Conservation: in every reachable state an order's pending is what it was when first tracked plus its
   reserved entries, its settled grew by exactly what settled, and the two never exceed the order's
   quantity (or their value when first tracked), however many adoptions overlapped before reservation.
   */
  lemma {:induction false} CapacityConserved(cfg: Config, history: seq<Timed>)
    requires LegalHistory(cfg, history)
    ensures Accounted(After(cfg, history))
  {
    if history != [] {
      var before := After(cfg, history[..|history| - 1]);
      var last := history[|history| - 1];
      CapacityConserved(cfg, history[..|history| - 1]);
      StepKeepsEntries(cfg, before, last.event, last.now);
      forall id | id in After(cfg, history).t.orders && id != 0 ensures OrderBooked(After(cfg, history), id) {
        StepKeepsOrder(cfg, before, last.event, last.now, id);
      }
    }
  }

  /**
   The reservation is the backstop, and no clamp ever fires: a reservation succeeds exactly when the
   quantity is still free and then adds exactly that quantity, once; settling and failing move exactly it.
   */
  lemma AccountingIsExact(cfg: Config, history: seq<Timed>, p: string)
    requires LegalHistory(cfg, history)
    requires var t := After(cfg, history).t; p in t.entries && t.entries[p].orderId != 0 && t.entries[p].orderId in t.orders
    ensures var t := After(cfg, history).t; var e := t.entries[p]; var o := t.orders[e.orderId];
            && (ReserveOutcome(t, p) == Reserved <==> !e.reserved && o.settled + o.pending + e.quantity <= o.quantity)
            && (var t' := TryReserve(t, p);
                && (ReserveOutcome(t, p) == Reserved ==> Moved(t, t', e.orderId, e.quantity, 0.0))
                && (ReserveOutcome(t, p) != Reserved ==> t' == t)
                && TryReserve(t', p) == t')
            && (var q := if e.reserved then e.quantity else 0.0;
                && Moved(t, MarkSettled(t, p), e.orderId, -q, q)
                && Moved(t, MarkFailed(t, p), e.orderId, -q, 0.0))
  {
    hide *;
    CapacityConserved(cfg, history);
    EntryBooked(After(cfg, history), p);
    ReserveMoves(After(cfg, history), p);
    CloseMoves(After(cfg, history), p);
  }

  lemma EntryBooked(r: Run, p: string)
    requires Accounted(r) && p in r.t.entries && r.t.entries[p].orderId != 0 && r.t.entries[p].orderId in r.t.orders
    ensures r.t.entries[p].quantity >= 0.0 && OrderBooked(r, r.t.entries[p].orderId)
  {
    assert EntryLegal(r.t, p);
  }

  lemma ReserveMoves(r: Run, p: string)
    requires p in r.t.entries && r.t.entries[p].orderId != 0 && r.t.entries[p].quantity >= 0.0
    requires OrderBooked(r, r.t.entries[p].orderId)
    ensures var t := r.t; var e := t.entries[p]; var o := t.orders[e.orderId]; var t' := TryReserve(t, p);
            && (ReserveOutcome(t, p) == Reserved <==> !e.reserved && o.settled + o.pending + e.quantity <= o.quantity)
            && (ReserveOutcome(t, p) == Reserved ==> Moved(t, t', e.orderId, e.quantity, 0.0))
            && (ReserveOutcome(t, p) != Reserved ==> t' == t)
            && TryReserve(t', p) == t'
  {
    var e := r.t.entries[p];
    var reserved := ReservedFor(r.t.entries, e.orderId);
    if !e.reserved {
      ReserveBalances(r.t.orders[e.orderId], r.base[e.orderId], Filled(r, e.orderId), reserved, p, e.quantity);
    }
    hide Balanced, ReservedFor, RemainingCapacity, SatAdd, Filled;
  }

  lemma CloseMoves(r: Run, p: string)
    requires p in r.t.entries && OrderBooked(r, r.t.entries[p].orderId)
    ensures var t := r.t; var e := t.entries[p]; var q := if e.reserved then e.quantity else 0.0;
            Moved(t, MarkSettled(t, p), e.orderId, -q, q) && Moved(t, MarkFailed(t, p), e.orderId, -q, 0.0)
  {
    var e := r.t.entries[p];
    if e.reserved {
      ClosedReserved(r.t.entries, p);
      CloseBalances(r.t.orders[e.orderId], r.base[e.orderId], Filled(r, e.orderId), ReservedFor(r.t.entries, e.orderId), p, e.quantity);
    }
    hide Balanced, ReservedFor, SatAdd, SatSub, MaxZero, Filled;
  }

  /** Only order `id` changed, by exactly these amounts. */
  ghost predicate Moved(t: Tracker, t': Tracker, id: nat, pending: real, settled: real)
    requires id in t.orders
  {
    && t'.orders.Keys == t.orders.Keys
    && (forall other :: other in t.orders && other != id ==> t'.orders[other] == t.orders[other])
    && t'.orders[id].pending == t.orders[id].pending + pending
    && t'.orders[id].settled == t.orders[id].settled + settled
    && t'.orders[id].quantity == t.orders[id].quantity
  }

  /**
   A proposal for a tracked order, our bid when we buy and our offer when we sell, is accepted exactly when our key
   signed the order after the start and the quantity is still unspoken for; otherwise it is rejected.
   */
  lemma AcceptedFitsCapacity(cfg: Config, history: seq<Timed>, p: Proposal, bid: nat, offer: nat, party: string, now: nat)
    requires LegalHistory(cfg, history) && p.orderMatch == Some(OrderMatch(bid, offer))
    requires var id := if p.buyer == party then bid else offer; id != 0 && id in After(cfg, history).t.orders
    ensures var r := After(cfg, history); var id := if p.buyer == party then bid else offer;
            var verdict := VerifySettlement(cfg, r.t, p, party, now);
            && id in r.base && (verdict == Accepted(id) || verdict.Rejected?)
            && (verdict == Accepted(id) <==>
                  var o := r.t.orders[id];
                  && cfg.keyAvailable && cfg.verifies(o.signedData, o.signature) && o.nonce > cfg.startTime
                  && p.baseQuantity.Some? && p.baseQuantity.value > 0.0
                  && r.base[id].settled + Filled(r, id) + r.base[id].pending + Sum(ReservedFor(r.t.entries, id))
                       + p.baseQuantity.value <= r.base[id].quantity)
  {
    CapacityConserved(cfg, history);
    var r := After(cfg, history);
    var id := if p.buyer == party then bid else offer;
    assert OrderBooked(r, id);
    if p.baseQuantity.Some? && p.baseQuantity.value > 0.0 {
      CapacityExact(r.t.orders[id], r.base[id], Filled(r, id), ReservedFor(r.t.entries, id), p.baseQuantity.value);
    }
    hide After, LegalHistory, ReservedFor, Sum, Accounted;
  }

  // What entries and orders carry

  /** The order and quantity an entry stands for: as first adopted since it last closed. */
  function RecordedAfter(before: Option<(nat, Decimal)>, e: Event, p: string): Option<(nat, Decimal)> {
    match e
    case Adopted(q, id, quantity) => if q == p && before.None? then Some((id, quantity)) else before
    case Settle(q) => if q == p then None else before
    case Fail(q) => if q == p then None else before
    case _ => before
  }

  function Recorded(history: seq<Timed>, p: string): Option<(nat, Decimal)> {
    if history == [] then None
    else RecordedAfter(Recorded(history[..|history| - 1], p), history[|history| - 1].event, p)
  }

  ghost predicate EntryIs(t: Tracker, p: string, recorded: Option<(nat, Decimal)>) {
    if recorded.None? then p !in t.entries
    else p in t.entries && t.entries[p].orderId == recorded.value.0 && t.entries[p].quantity == recorded.value.1
  }

  lemma OtherEventsKeepEntries(cfg: Config, t: Tracker, e: Event, now: nat)
    requires !e.Adopted? && !e.Settle? && !e.Fail? && !e.Reserve?
    ensures Apply(cfg, t, e, now).entries == t.entries
  {
    hide Prune, FirstMatch;
  }

  lemma StepKeepsRecorded(cfg: Config, t: Tracker, e: Event, now: nat, p: string, before: Option<(nat, Decimal)>)
    requires EntryIs(t, p, before)
    ensures EntryIs(Apply(cfg, t, e, now), p, RecordedAfter(before, e, p))
  {
    if !e.Adopted? && !e.Settle? && !e.Fail? && !e.Reserve? {
      OtherEventsKeepEntries(cfg, t, e, now);
      hide Apply;
    }
    hide SatAdd, SatSub, MaxZero, RemainingCapacity;
  }

  /** In every run an entry stands for the order and quantity of its adoption, until it settles or fails. */
  lemma {:induction false} EntriesAreAsRecorded(cfg: Config, history: seq<Timed>, p: string)
    ensures EntryIs(After(cfg, history).t, p, Recorded(history, p))
  {
    if history != [] {
      var n := |history| - 1;
      EntriesAreAsRecorded(cfg, history[..n], p);
      hide Apply, EntryIs, RecordedAfter;
      StepKeepsRecorded(cfg, After(cfg, history[..n]).t, history[n].event, history[n].now, p, Recorded(history[..n], p));
    }
  }

  // Where nothing is reserved too early

  /** Every entry's order is tracked, as when each proposal is verified before it is recorded. */
  ghost predicate EntriesTracked(t: Tracker) {
    forall p :: p in t.entries ==> t.entries[p].orderId == 0 || t.entries[p].orderId in t.orders
  }

  lemma TrackedEntriesReserveNothingEarly(t: Tracker, id: nat)
    requires EntriesTracked(t) && id != 0 && id !in t.orders
    ensures Unreserved(t, id)
  {
    assert ReservedFor(t.entries, id) == map[];
  }

  lemma EntriesStayTracked(cfg: Config, t: Tracker, e: Event, now: nat)
    requires EntriesTracked(t) && (e.Adopted? ==> e.orderId == 0 || e.orderId in t.orders)
    ensures EntriesTracked(Apply(cfg, t, e, now))
  {
    hide Prune, FirstMatch, RemainingCapacity;
    OrdersStayTracked(cfg, t, e, now);
  }

  const OFFER := FailedSubmit("M", Some(10.0), 1, "sig", [])

  /** A proposal recorded unverified and reserved, then its order tracked. */
  const RESERVED := Tracker(map[], map["p" := Entry(7, 5.0, true)], map[], map[], [])

  /**
   A reservation made before its order is tracked is not on the order's books: settling it drives pending
   below zero, where the clamp catches it.
   */
  lemma EarlyReservationClamps(cfg: Config)
    ensures TryReserve(Record(EMPTY, "p", 7, 5.0), "p") == RESERVED && !Legal(cfg, RESERVED, Track(7, OFFER), 0)
    ensures var t := TrackOrder(RESERVED, 7, OFFER);
            && SatSub(t.orders[7].pending, t.entries["p"].quantity) < 0.0
            && MarkSettled(t, "p").orders[7] == t.orders[7].(settled := 5.0)
  {
    var reserved := ReservedFor(RESERVED.entries, 7);
    SumRemove(reserved, "p");
    assert reserved - {"p"} == map[];
  }
}
