/**
 Order tracking and settlement verification: the tracker's state, what each of its operations
 does to that state, and the tracker object whose methods carry those operations out in place.
 */
module OrderTracking {
  import opened Wrappers
  import opened Decimals

  /** Milliseconds a market's untracked matches stay held after a submit failed at the transport. */
  const SUBMIT_FAILED_HOLD: nat := 60_000
  /** Milliseconds a failed submit stays adoptable. */
  const FAILED_SUBMIT_ADOPT: nat := 3_600_000
  const FAILED_SUBMIT_MAX: nat := 256
  const USIZE_MAX: nat := 0xFFFF_FFFF_FFFF_FFFF

  type Bytes = seq<bv8>

  /** A decimal read from text; `None` when the text does not parse. */
  type Parsed = Option<Decimal>

  datatype TrackedOrder = TrackedOrder(
    market: string, quantity: Decimal, settled: Decimal, pending: Decimal,
    nonce: nat, signature: string, signedData: Bytes, byAgent: bool, active: bool)

  datatype Entry = Entry(orderId: nat, quantity: Decimal, reserved: bool)

  datatype FailedSubmit = FailedSubmit(
    market: string, quantity: Parsed, nonce: nat, signature: string, signedData: Bytes)

  datatype Noted = Noted(at: nat, submit: FailedSubmit)

  /** An order as the server lists it. */
  datatype ServerOrder = ServerOrder(
    orderId: nat, market: string, nonce: nat, signature: Option<string>, signedData: Bytes,
    quantity: Parsed, filled: Parsed, pending: Parsed)

  datatype OrderMatch = OrderMatch(bidOrderId: nat, offerOrderId: nat)

  datatype Proposal = Proposal(market: string, buyer: string, orderMatch: Option<OrderMatch>, baseQuantity: Parsed)

  datatype RejectReason =
    | NoOrderMatch | NoSignature | KeyUnavailable | BadSignature | StaleNonce
    | NegativeQuantity | InvalidRequest | CapacityOverflow | InsufficientCapacity

  datatype VerifyResult =
    | Accepted(orderId: nat)
    | Rejected(reason: RejectReason)
    | NeedServerLookup(orderId: nat)
    | PlacementInFlight(orderId: nat)

  datatype ReserveResult = Reserved | AlreadyReserved | NotAdopted | ReserveOverflow | NoCapacity

  /** What never changes after construction; `verifies` stands for the Ed25519 check with our key. */
  datatype Config = Config(startTime: nat, keyAvailable: bool, verifies: (Bytes, string) -> bool)

  datatype Tracker = Tracker(
    orders: map<nat, TrackedOrder>,
    entries: map<string, Entry>,
    placing: map<string, nat>,
    failedAt: map<string, nat>,
    failed: seq<Noted>)

  const EMPTY := Tracker(map[], map[], map[], map[], [])

  function Age(at: nat, now: nat): nat {
    if now >= at then now - at else 0
  }

  // Placement guards

  function Count(t: Tracker, market: string): nat {
    if market in t.placing then t.placing[market] else 0
  }

  function Raised(counts: map<string, nat>, market: string): map<string, nat> {
    var count := Get(counts, market).GetOr(0);
    counts[market := if count < USIZE_MAX then count + 1 else USIZE_MAX]
  }

  function Lowered(counts: map<string, nat>, market: string): map<string, nat> {
    if market !in counts then counts
    else if counts[market] <= 1 then counts - {market}
    else counts[market := counts[market] - 1]
  }

  function BeginPlacement(t: Tracker, market: string): Tracker {
    t.(placing := Raised(t.placing, market))
  }

  function EndPlacement(t: Tracker, market: string): Tracker {
    t.(placing := Lowered(t.placing, market))
  }

  predicate SubmitFailedRecently(t: Tracker, market: string, now: nat) {
    market in t.failedAt && Age(t.failedAt[market], now) < SUBMIT_FAILED_HOLD
  }

  // Failed submits

  function Prune(failed: seq<Noted>, now: nat): seq<Noted> {
    if failed == [] then []
    else
      (if Age(failed[0].at, now) < FAILED_SUBMIT_ADOPT then [failed[0]] else []) + Prune(failed[1..], now)
  }

  function DropOldest(failed: seq<Noted>): seq<Noted> {
    if |failed| >= FAILED_SUBMIT_MAX then failed[|failed| - FAILED_SUBMIT_MAX + 1..] else failed
  }

  function NoteSubmitFailed(t: Tracker, submit: FailedSubmit, now: nat): Tracker {
    var held := map m | m in t.failedAt && Age(t.failedAt[m], now) < SUBMIT_FAILED_HOLD :: t.failedAt[m];
    t.(failedAt := held[submit.market := now],
       failed := DropOldest(Prune(t.failed, now)) + [Noted(now, submit)])
  }

  predicate Matches(s: FailedSubmit, o: ServerOrder) {
    s.nonce == o.nonce && s.market == o.market && o.signature == Some(s.signature) && s.signedData == o.signedData
  }

  /** Position of the first kept submit that `o` was booked from. */
  function FirstMatch(failed: seq<Noted>, o: ServerOrder): (r: Option<nat>)
    ensures r.Some? ==> r.value < |failed| && Matches(failed[r.value].submit, o)
    ensures r.Some? ==> forall i :: 0 <= i < r.value ==> !Matches(failed[i].submit, o)
    ensures r.None? ==> forall i :: 0 <= i < |failed| ==> !Matches(failed[i].submit, o)
  {
    if failed == [] then None
    else if Matches(failed[0].submit, o) then Some(0)
    else
      var rest := FirstMatch(failed[1..], o);
      if rest.Some? then Some(rest.value + 1) else None
  }

  function TrackOrder(t: Tracker, orderId: nat, s: FailedSubmit): Tracker {
    t.(orders := t.orders[orderId :=
      TrackedOrder(s.market, s.quantity.GetOr(0.0), 0.0, 0.0, s.nonce, s.signature, s.signedData, true, true)])
  }

  /** The queue position adopted for `o`, once aged submits are gone. */
  function Adoptable(t: Tracker, o: ServerOrder, now: nat): Option<nat> {
    if o.orderId in t.orders then None else FirstMatch(Prune(t.failed, now), o)
  }

  function AdoptFailedSubmit(t: Tracker, o: ServerOrder, now: nat): Tracker {
    var kept := Prune(t.failed, now);
    var pos := Adoptable(t, o, now);
    if pos.None? then
      t.(failed := kept)
    else
      TrackOrder(t.(failed := kept[..pos.value] + kept[pos.value + 1..]), o.orderId, kept[pos.value].submit)
  }

  function AdoptListed(t: Tracker, listed: seq<ServerOrder>, now: nat): Tracker
    decreases listed
  {
    if listed == [] then t else AdoptListed(AdoptFailedSubmit(t, listed[0], now), listed[1..], now)
  }

  function AdoptedCount(t: Tracker, listed: seq<ServerOrder>, now: nat): nat
    decreases listed
  {
    if listed == [] then 0
    else (if Adoptable(t, listed[0], now).Some? then 1 else 0)
         + AdoptedCount(AdoptFailedSubmit(t, listed[0], now), listed[1..], now)
  }

  // Verification

  function RemainingCapacity(o: TrackedOrder): Option<Decimal> {
    var unsettled := CheckedSub(o.quantity, o.settled);
    if unsettled.None? then None else CheckedSub(unsettled.value, o.pending)
  }

  function CheckCapacity(o: TrackedOrder, orderId: nat, requested: Parsed): VerifyResult {
    var base := requested.GetOr(0.0);
    var remaining := RemainingCapacity(o);
    if base <= 0.0 then Rejected(InvalidRequest)
    else if remaining.None? then Rejected(CapacityOverflow)
    else if remaining.value < base then Rejected(InsufficientCapacity)
    else Accepted(orderId)
  }

  function OurOrderId(m: OrderMatch, p: Proposal, ourParty: string): nat {
    if p.buyer == ourParty then m.bidOrderId else m.offerOrderId
  }

  function VerifyTracked(cfg: Config, o: TrackedOrder, orderId: nat, p: Proposal): VerifyResult {
    if !cfg.keyAvailable then Rejected(KeyUnavailable)
    else if !cfg.verifies(o.signedData, o.signature) then Rejected(BadSignature)
    else if o.nonce <= cfg.startTime then Rejected(StaleNonce)
    else CheckCapacity(o, orderId, p.baseQuantity)
  }

  function VerifySettlement(cfg: Config, t: Tracker, p: Proposal, ourParty: string, now: nat): VerifyResult {
    if p.orderMatch.None? then
      Rejected(NoOrderMatch)
    else
      var orderId := OurOrderId(p.orderMatch.value, p, ourParty);
      if orderId in t.orders then VerifyTracked(cfg, t.orders[orderId], orderId, p)
      else if Count(t, p.market) > 0 || SubmitFailedRecently(t, p.market, now) then PlacementInFlight(orderId)
      else NeedServerLookup(orderId)
  }

  predicate IsNegative(raw: Parsed) {
    raw.Some? && raw.value < 0.0
  }

  function ImportProblem(cfg: Config, o: ServerOrder): Option<RejectReason> {
    if o.signature.None? || o.signature.value == "" then Some(NoSignature)
    else if !cfg.keyAvailable then Some(KeyUnavailable)
    else if !cfg.verifies(o.signedData, o.signature.value) then Some(BadSignature)
    else if o.nonce <= cfg.startTime then Some(StaleNonce)
    else if IsNegative(o.quantity) || IsNegative(o.filled) || IsNegative(o.pending) then Some(NegativeQuantity)
    else None
  }

  function Imported(t: Tracker, o: ServerOrder): Tracker {
    if o.orderId in t.orders then t
    else t.(orders := t.orders[o.orderId :=
      TrackedOrder(o.market, o.quantity.GetOr(0.0), o.filled.GetOr(0.0), o.pending.GetOr(0.0),
                   o.nonce, o.signature.GetOr(""), o.signedData, false, true)])
  }

  /** The tracker after a server order was verified, and imported when it passed. */
  function AfterImport(cfg: Config, t: Tracker, o: ServerOrder): Tracker {
    if ImportProblem(cfg, o).Some? then t else Imported(t, o)
  }

  function ImportVerdict(cfg: Config, t: Tracker, o: ServerOrder, p: Proposal): VerifyResult {
    var problem := ImportProblem(cfg, o);
    if problem.Some? then Rejected(problem.value)
    else CheckCapacity(Imported(t, o).orders[o.orderId], o.orderId, p.baseQuantity)
  }

  // Settlement accounting

  function Record(t: Tracker, proposalId: string, orderId: nat, quantity: Decimal): Tracker {
    if proposalId in t.entries then t
    else t.(entries := t.entries[proposalId := Entry(orderId, quantity, false)])
  }

  function ReserveOutcome(t: Tracker, proposalId: string): ReserveResult {
    if proposalId !in t.entries then NotAdopted
    else
      var e := t.entries[proposalId];
      if e.reserved then AlreadyReserved
      else if e.orderId != 0 && e.orderId in t.orders then
        var remaining := RemainingCapacity(t.orders[e.orderId]);
        if remaining.None? then ReserveOverflow
        else if remaining.value < e.quantity then NoCapacity
        else Reserved
      else Reserved
  }

  function TryReserve(t: Tracker, proposalId: string): Tracker {
    if ReserveOutcome(t, proposalId) != Reserved then t
    else
      var e := t.entries[proposalId];
      var t1 := t.(entries := t.entries[proposalId := e.(reserved := true)]);
      if e.orderId !in t.orders then t1
      else
        var o := t.orders[e.orderId];
        t1.(orders := t.orders[e.orderId := o.(pending := SatAdd(o.pending, e.quantity))])
  }

  function MarkSettled(t: Tracker, proposalId: string): Tracker {
    if proposalId !in t.entries then t
    else
      var e := t.entries[proposalId];
      var t1 := t.(entries := t.entries - {proposalId});
      if !e.reserved || e.orderId !in t.orders then t1
      else
        var o := t.orders[e.orderId];
        t1.(orders := t.orders[e.orderId :=
          o.(pending := MaxZero(SatSub(o.pending, e.quantity)), settled := SatAdd(o.settled, e.quantity))])
  }

  function MarkFailed(t: Tracker, proposalId: string): Tracker {
    if proposalId !in t.entries then t
    else
      var e := t.entries[proposalId];
      var t1 := t.(entries := t.entries - {proposalId});
      if !e.reserved || e.orderId !in t.orders then t1
      else
        var o := t.orders[e.orderId];
        t1.(orders := t.orders[e.orderId := o.(pending := MaxZero(SatSub(o.pending, e.quantity)))])
  }

  function CancelOrder(t: Tracker, orderId: nat): Tracker {
    if orderId !in t.orders then t
    else t.(orders := t.orders[orderId := t.orders[orderId].(active := false)])
  }

  function CancelAll(t: Tracker): Tracker {
    t.(orders := map id | id in t.orders :: t.orders[id].(active := false))
  }

  // The objects

  /** Per-market count of placements in flight, shared by the tracker and its guards. */
  class PlacingCounts {
    var counts: map<string, nat>

    constructor ()
      ensures counts == map[]
    {
      counts := map[];
    }
  }

  class PlacementGuard {
    const placing: PlacingCounts
    const market: string

    constructor (placing: PlacingCounts, market: string)
      ensures this.placing == placing && this.market == market
    {
      this.placing := placing;
      this.market := market;
    }

    method Drop()
      modifies placing
      ensures placing.counts == Lowered(old(placing.counts), market)
    {
      if market in placing.counts {
        var count := placing.counts[market];
        count := if count > 0 then count - 1 else 0;
        placing.counts := placing.counts[market := count];
        if count == 0 {
          placing.counts := placing.counts - {market};
        }
      }
    }
  }

  class OrderTracker {
    const config: Config
    const placing: PlacingCounts
    var orders: map<nat, TrackedOrder>
    var settlementOrders: map<string, Entry>
    var submitFailedAt: map<string, nat>
    var failedSubmits: seq<Noted>

    ghost function State(): Tracker
      reads this, placing
    {
      Tracker(orders, settlementOrders, placing.counts, submitFailedAt, failedSubmits)
    }

    constructor (config: Config)
      ensures State() == EMPTY && fresh(placing) && this.config == config
    {
      this.config := config;
      placing := new PlacingCounts();
      orders, settlementOrders, submitFailedAt, failedSubmits := map[], map[], map[], [];
    }

    method Begin(market: string) returns (guard: PlacementGuard)
      modifies placing
      ensures State() == BeginPlacement(old(State()), market)
      ensures fresh(guard) && guard.placing == placing && guard.market == market
    {
      var count := if market in placing.counts then placing.counts[market] else 0;
      placing.counts := placing.counts[market := if count < USIZE_MAX then count + 1 else USIZE_MAX];
      guard := new PlacementGuard(placing, market);
    }

    method NoteFailed(submit: FailedSubmit, now: nat)
      modifies this
      ensures State() == NoteSubmitFailed(old(State()), submit, now)
    {
      hide Prune, DropOldest, Age;
      submitFailedAt := map m | m in submitFailedAt && Age(submitFailedAt[m], now) < SUBMIT_FAILED_HOLD :: submitFailedAt[m];
      submitFailedAt := submitFailedAt[submit.market := now];
      failedSubmits := Prune(failedSubmits, now);
      MakeRoom();
      failedSubmits := failedSubmits + [Noted(now, submit)];
    }

    /** Drops the oldest failed submits until one more fits. */
    method MakeRoom()
      modifies this`failedSubmits
      ensures failedSubmits == DropOldest(old(failedSubmits))
    {
      while |failedSubmits| >= FAILED_SUBMIT_MAX
        invariant |failedSubmits| <= |old(failedSubmits)|
        invariant |old(failedSubmits)| < FAILED_SUBMIT_MAX ==> failedSubmits == old(failedSubmits)
        invariant |old(failedSubmits)| >= FAILED_SUBMIT_MAX ==> |failedSubmits| >= FAILED_SUBMIT_MAX - 1
        invariant failedSubmits == old(failedSubmits)[|old(failedSubmits)| - |failedSubmits|..]
      {
        failedSubmits := failedSubmits[1..];
      }
    }

    method AdoptFailed(order: ServerOrder, now: nat) returns (adopted: bool)
      modifies this
      ensures State() == AdoptFailedSubmit(old(State()), order, now)
      ensures adopted == Adoptable(old(State()), order, now).Some?
    {
      failedSubmits := Prune(failedSubmits, now);
      if order.orderId in orders {
        return false;
      }
      var pos := 0;
      while pos < |failedSubmits| && !Matches(failedSubmits[pos].submit, order)
        invariant pos <= |failedSubmits|
        invariant forall i :: 0 <= i < pos ==> !Matches(failedSubmits[i].submit, order)
      {
        pos := pos + 1;
      }
      if pos == |failedSubmits| {
        return false;
      }
      var s := failedSubmits[pos].submit;
      failedSubmits := failedSubmits[..pos] + failedSubmits[pos + 1..];
      Track(order.orderId, s);
      return true;
    }

    method AdoptAllListed(listed: seq<ServerOrder>, now: nat) returns (adopted: nat)
      modifies this
      ensures old(failedSubmits) == [] ==> State() == old(State()) && adopted == 0
      ensures old(failedSubmits) != [] ==>
                State() == AdoptListed(old(State()), listed, now) && adopted == AdoptedCount(old(State()), listed, now)
    {
      adopted := 0;
      if failedSubmits == [] {
        return;
      }
      var i := 0;
      while i < |listed|
        invariant i <= |listed|
        invariant AdoptListed(State(), listed[i..], now) == AdoptListed(old(State()), listed, now)
        invariant adopted + AdoptedCount(State(), listed[i..], now) == AdoptedCount(old(State()), listed, now)
      {
        assert listed[i..][1..] == listed[i + 1..];
        var one := AdoptFailed(listed[i], now);
        if one { adopted := adopted + 1; }
        i := i + 1;
      }
    }

    method Track(orderId: nat, s: FailedSubmit)
      modifies this
      ensures State() == TrackOrder(old(State()), orderId, s)
    {
      var order := TrackedOrder(s.market, s.quantity.GetOr(0.0), 0.0, 0.0, s.nonce, s.signature, s.signedData, true, true);
      orders := orders[orderId := order];
    }

    method VerifyAndImport(order: ServerOrder, proposal: Proposal) returns (verdict: VerifyResult)
      modifies this
      ensures State() == AfterImport(config, old(State()), order)
      ensures verdict == ImportVerdict(config, old(State()), order, proposal)
    {
      var problem := ImportProblem(config, order);
      if problem.Some? {
        return Rejected(problem.value);
      }
      if order.orderId !in orders {
        orders := orders[order.orderId :=
          TrackedOrder(order.market, order.quantity.GetOr(0.0), order.filled.GetOr(0.0), order.pending.GetOr(0.0),
                       order.nonce, order.signature.GetOr(""), order.signedData, false, true)];
      }
      return CheckCapacity(orders[order.orderId], order.orderId, proposal.baseQuantity);
    }

    method RecordSettlementOrder(proposalId: string, orderId: nat, quantity: Decimal)
      modifies this
      ensures State() == Record(old(State()), proposalId, orderId, quantity)
    {
      if proposalId in settlementOrders {
        return;
      }
      settlementOrders := settlementOrders[proposalId := Entry(orderId, quantity, false)];
    }

    method TryReservePending(proposalId: string) returns (outcome: ReserveResult)
      modifies this
      ensures State() == TryReserve(old(State()), proposalId)
      ensures outcome == ReserveOutcome(old(State()), proposalId)
    {
      if proposalId !in settlementOrders {
        return NotAdopted;
      }
      var entry := settlementOrders[proposalId];
      if entry.reserved {
        return AlreadyReserved;
      }
      if entry.orderId != 0 && entry.orderId in orders {
        var remaining := RemainingCapacity(orders[entry.orderId]);
        if remaining.None? {
          return ReserveOverflow;
        }
        if remaining.value < entry.quantity {
          return NoCapacity;
        }
      }
      settlementOrders := settlementOrders[proposalId := entry.(reserved := true)];
      if entry.orderId in orders {
        var order := orders[entry.orderId];
        orders := orders[entry.orderId := order.(pending := SatAdd(order.pending, entry.quantity))];
      }
      return Reserved;
    }

    method Settle(proposalId: string)
      modifies this
      ensures State() == MarkSettled(old(State()), proposalId)
    {
      if proposalId in settlementOrders {
        var entry := settlementOrders[proposalId];
        settlementOrders := settlementOrders - {proposalId};
        if entry.reserved && entry.orderId in orders {
          var order := orders[entry.orderId];
          order := order.(pending := MaxZero(SatSub(order.pending, entry.quantity)));
          order := order.(settled := SatAdd(order.settled, entry.quantity));
          orders := orders[entry.orderId := order];
        }
      }
    }

    method Fail(proposalId: string)
      modifies this
      ensures State() == MarkFailed(old(State()), proposalId)
    {
      if proposalId in settlementOrders {
        var entry := settlementOrders[proposalId];
        settlementOrders := settlementOrders - {proposalId};
        if entry.reserved && entry.orderId in orders {
          var order := orders[entry.orderId];
          orders := orders[entry.orderId := order.(pending := MaxZero(SatSub(order.pending, entry.quantity)))];
        }
      }
    }

    method Cancel(orderId: nat)
      modifies this
      ensures State() == CancelOrder(old(State()), orderId)
      ensures orderId in orders ==> !orders[orderId].active
    {
      if orderId in orders {
        orders := orders[orderId := orders[orderId].(active := false)];
      }
    }

    method CancelEverything()
      modifies this
      ensures State() == CancelAll(old(State()))
      ensures orders.Keys == old(orders).Keys && forall id :: id in orders ==> orders[id] == old(orders)[id].(active := false)
    {
      var left := orders.Keys;
      while left != {}
        invariant left <= orders.Keys == old(orders).Keys
        invariant forall id :: id in orders ==>
                    orders[id] == if id in left then old(orders)[id] else old(orders)[id].(active := false)
        invariant unchanged(`settlementOrders) && unchanged(`submitFailedAt) && unchanged(`failedSubmits)
      {
        var id :| id in left;
        orders := orders[id := orders[id].(active := false)];
        left := left - {id};
      }
    }
  }
}
