/**
 What the tracker's callers guarantee follows from how placements, lookups and listings interleave: no order
 is tracked twice, so capacity accounting holds over every interleaving.
 */
module PlacementLegality {
  import opened Wrappers
  import opened OrderTracking
  import opened PlacementProtocol
  import Accounting = TrackerAccounting

  predicate SamePayload(a: FailedSubmit, b: FailedSubmit) {
    a.nonce == b.nonce && a.market == b.market && a.signature == b.signature && a.signedData == b.signedData
  }

  /** After the first `k` steps, proposal `p` for our booked order `id` of its market was sent to server lookup. */
  ghost predicate LookedUp(cfg: Config, steps: seq<Step>, id: nat, k: nat, p: Proposal, party: string) {
    && k <= |steps| && p.orderMatch.Some?
    && id == (if p.buyer == party then p.orderMatch.value.bidOrderId else p.orderMatch.value.offerOrderId)
    && Possible(cfg, steps[..k])
    && var w := After(cfg, steps[..k]);
    && VerifySettlement(cfg, w.t, p, party, w.now) == NeedServerLookup(id)
    && id in w.booked && w.booked[id] in w.placements && w.placements[w.booked[id]].submit.market == p.market
  }

  /** A listed order carries what it was booked from, and carries one of our payloads only if booked from it. */
  ghost predicate ListedAsBooked(w: World, o: ServerOrder) {
    if o.orderId in w.booked && w.booked[o.orderId] in w.placements
    then Matches(w.placements[w.booked[o.orderId]].submit, o)
    else forall pid :: pid in w.placements ==> !Matches(w.placements[pid].submit, o)
  }

  /**
   What the surroundings guarantee of a step: no payload is signed that is still queued as failed, nor noted as
   failed while it is in flight again; listings are truthful; and an order of ours is imported only after a
   lookup found it in its market.
   */
  ghost predicate Truthful(cfg: Config, steps: seq<Step>, s: Step)
    requires Possible(cfg, steps)
  {
    var w := After(cfg, steps);
    && (s.Sign? ==> forall n :: n in w.t.failed ==> !SamePayload(n.submit, s.submit))
    && (s.NoteLost? && s.pid in w.placements ==>
          forall pid :: pid in w.placements && pid != s.pid && HoldsGuard(w.placements[pid].phase) ==>
            !SamePayload(w.placements[s.pid].submit, w.placements[pid].submit))
    && (s.Settlement? && s.event.Adopt? ==> ListedAsBooked(w, s.event.listed))
    && (s.Settlement? && s.event.Import? && s.event.order.orderId in w.booked ==>
          exists k: nat, p, party :: LookedUp(cfg, steps, s.event.order.orderId, k, p, party))
  }

  /** Nothing is reserved on an order before it is tracked, and no entry has a negative quantity. */
  ghost predicate Accountable(cfg: Config, w: World, s: Step) {
    && (s.Settlement? && !s.event.Track? ==> Accounting.Legal(cfg, w.t, s.event, w.now))
    && (s.TrackAnswered? && s.pid in w.placements && w.placements[s.pid].phase.Answered? ==>
          var id := w.placements[s.pid].phase.orderId; id != 0 && id !in w.t.orders ==> Accounting.Unreserved(w.t, id))
  }

  ghost predicate Honest(cfg: Config, steps: seq<Step>, s: Step)
    requires Possible(cfg, steps)
  {
    Truthful(cfg, steps, s) && Accountable(cfg, After(cfg, steps), s)
  }

  ghost predicate HonestRun(cfg: Config, steps: seq<Step>)
    requires Possible(cfg, steps)
  {
    steps == [] || (HonestRun(cfg, steps[..|steps| - 1]) && Honest(cfg, steps[..|steps| - 1], steps[|steps| - 1]))
  }

  // What every honest step keeps

  /** No queued failed submit carries the payload of a placement under guard. */
  ghost predicate QueueApart(w: World) {
    forall n, pid :: n in w.t.failed && pid in w.placements && HoldsGuard(w.placements[pid].phase) ==>
      !SamePayload(n.submit, w.placements[pid].submit)
  }

  ghost predicate FailedFrom(w: World, s: FailedSubmit) {
    exists pid :: pid in w.placements && w.placements[pid].phase.FailedAt? && w.placements[pid].submit == s
  }

  ghost predicate QueueFromFailures(w: World) {
    forall n :: n in w.t.failed ==> FailedFrom(w, n.submit)
  }

  ghost predicate UntrackedWhileGuarded(w: World, id: nat) {
    id in w.booked ==> w.booked[id] in w.placements && (HoldsGuard(w.placements[w.booked[id]].phase) ==> id !in w.t.orders)
  }

  ghost predicate AnsweredAsBooked(w: World, pid: nat) {
    pid in w.placements && w.placements[pid].phase.Answered? ==>
      var id := w.placements[pid].phase.orderId; id in w.booked && w.booked[id] == pid
  }

  ghost predicate Consistent(w: World) {
    && QueueApart(w) && QueueFromFailures(w)
    && (forall id :: UntrackedWhileGuarded(w, id))
    && (forall pid :: AnsweredAsBooked(w, pid))
  }

  lemma QueueApartKept(cfg: Config, w: World, s: Step)
    requires Enabled(w, s) && QueueApart(w)
    requires s.Sign? ==> forall n :: n in w.t.failed ==> !SamePayload(n.submit, s.submit)
    requires s.NoteLost? ==> forall pid :: pid in w.placements && pid != s.pid && HoldsGuard(w.placements[pid].phase) ==>
                                             !SamePayload(w.placements[s.pid].submit, w.placements[pid].submit)
    ensures QueueApart(Do(cfg, w, s))
  {
    var w' := Do(cfg, w, s);
    QueueAfter(cfg, w, s);
    SubmitsStay(cfg, w, s);
    GuardsAfter(cfg, w, s);
    hide Do, Enabled, SamePayload;
  }

  /** A placement under guard was under guard before, or has just been signed; noting a loss drops its guard. */
  lemma GuardsAfter(cfg: Config, w: World, s: Step)
    requires Enabled(w, s)
    ensures var w' := Do(cfg, w, s);
            forall pid :: pid in w'.placements && HoldsGuard(w'.placements[pid].phase) ==>
              if pid in w.placements then HoldsGuard(w.placements[pid].phase) && !(s.NoteLost? && pid == s.pid)
              else s.Sign? && w'.placements[pid].submit == s.submit
  {
    hide Accounting.Apply, BeginPlacement, EndPlacement, NoteSubmitFailed, TrackOrder;
  }

  lemma SubmitsStay(cfg: Config, w: World, s: Step)
    requires Enabled(w, s)
    ensures var w' := Do(cfg, w, s);
            && w.placements.Keys <= w'.placements.Keys && (!s.Sign? ==> w'.placements.Keys == w.placements.Keys)
            && forall pid :: pid in w.placements ==> w'.placements[pid].submit == w.placements[pid].submit
    ensures forall pid :: pid in w.placements && !HoldsGuard(w.placements[pid].phase) ==>
                            Do(cfg, w, s).placements[pid].phase == w.placements[pid].phase
    ensures forall id :: id in w.booked ==> id in Do(cfg, w, s).booked && Do(cfg, w, s).booked[id] == w.booked[id]
  {
    hide Accounting.Apply, BeginPlacement, EndPlacement, NoteSubmitFailed, TrackOrder;
  }

  /** The queue gains only the submit just noted. */
  lemma QueueGains(cfg: Config, t: Tracker, e: Accounting.Event, now: nat)
    requires !e.Note?
    ensures forall n :: n in Accounting.Apply(cfg, t, e, now).failed ==> n in t.failed
  {
    hide FirstMatch, RemainingCapacity;
    if e.Adopt? {
      PrunedMembers(t.failed, now);
    }
  }

  lemma {:induction false} PrunedMembers(q: seq<Noted>, now: nat)
    ensures forall n :: n in Prune(q, now) ==> n in q
  {
    if q != [] {
      PrunedMembers(q[1..], now);
    }
  }

  lemma QueueAfter(cfg: Config, w: World, s: Step)
    requires Enabled(w, s)
    ensures var w' := Do(cfg, w, s);
            forall n :: n in w'.t.failed ==> n in w.t.failed || (s.NoteLost? && n.submit == w.placements[s.pid].submit)
  {
    if s.Settlement? {
      QueueGains(cfg, w.t, s.event, w.now);
      hide Accounting.Apply;
    } else if s.NoteLost? {
      PrunedMembers(w.t.failed, w.now);
    }
    hide Prune;
  }

  lemma QueueFromFailuresKept(cfg: Config, w: World, s: Step)
    requires Enabled(w, s) && QueueFromFailures(w)
    ensures QueueFromFailures(Do(cfg, w, s))
  {
    var w' := Do(cfg, w, s);
    QueueAfter(cfg, w, s);
    SubmitsStay(cfg, w, s);
    if s.NoteLost? {
      assert w'.placements[s.pid].phase.FailedAt? && w'.placements[s.pid].submit == w.placements[s.pid].submit;
    }
    hide Do;
    forall n | n in w'.t.failed ensures FailedFrom(w', n.submit) {
      if n in w.t.failed {
        var pid :| pid in w.placements && w.placements[pid].phase.FailedAt? && w.placements[pid].submit == n.submit;
        assert w'.placements[pid].phase.FailedAt?;
      }
    }
  }

  lemma AnsweredAsBookedKept(cfg: Config, w: World, s: Step, pid: nat)
    requires Enabled(w, s) && AnsweredAsBooked(w, pid)
    ensures AnsweredAsBooked(Do(cfg, w, s), pid)
  {
    hide Accounting.Apply, BeginPlacement, EndPlacement, NoteSubmitFailed, TrackOrder;
  }

  /** Settlement work newly tracks only the order it adopts or imports. */
  lemma NewlyTracked(cfg: Config, t: Tracker, e: Accounting.Event, now: nat, id: nat)
    requires !e.Track? && id in Accounting.Apply(cfg, t, e, now).orders && id !in t.orders
    ensures (e.Adopt? && e.listed.orderId == id && Adoptable(t, e.listed, now).Some?) || (e.Import? && e.order.orderId == id)
  {
    hide Prune, FirstMatch, RemainingCapacity, Adoptable;
  }

  lemma AdoptedFromQueue(t: Tracker, o: ServerOrder, now: nat) returns (n: Noted)
    requires Adoptable(t, o, now).Some?
    ensures n in t.failed && Matches(n.submit, o)
  {
    PrunedMembers(t.failed, now);
    n := Prune(t.failed, now)[Adoptable(t, o, now).value];
  }

  /** An adopted order was booked from a placement already noted as failed. */
  lemma AdoptedIsFailed(w: World, o: ServerOrder)
    requires QueueApart(w) && QueueFromFailures(w) && ListedAsBooked(w, o)
    requires Adoptable(w.t, o, w.now).Some?
    ensures o.orderId in w.booked && w.booked[o.orderId] in w.placements && !HoldsGuard(w.placements[w.booked[o.orderId]].phase)
  {
    var n := AdoptedFromQueue(w.t, o, w.now);
    hide Adoptable;
    assert FailedFrom(w, n.submit);
    var pid :| pid in w.placements && w.placements[pid].phase.FailedAt? && w.placements[pid].submit == n.submit;
    assert Matches(w.placements[pid].submit, o);
    var booked := w.booked[o.orderId];
    assert SamePayload(n.submit, w.placements[booked].submit);
  }

  lemma {:induction false} UnguardedStays(cfg: Config, steps: seq<Step>, k: nat, id: nat)
    requires Possible(cfg, steps) && k <= |steps| && Possible(cfg, steps[..k])
    requires var w := After(cfg, steps[..k]);
             id in w.booked && w.booked[id] in w.placements && !HoldsGuard(w.placements[w.booked[id]].phase)
    ensures var w := After(cfg, steps);
            id in w.booked && w.booked[id] in w.placements && !HoldsGuard(w.placements[w.booked[id]].phase)
    decreases |steps|
  {
    if k == |steps| {
      assert steps[..k] == steps;
    } else {
      var n := |steps| - 1;
      assert steps[..n][..k] == steps[..k];
      UnguardedStays(cfg, steps[..n], k, id);
      SubmitsStay(cfg, After(cfg, steps[..n]), steps[n]);
    }
  }

  /** An order of ours found by a lookup belongs to a placement that is over. */
  lemma LookedUpIsOver(cfg: Config, steps: seq<Step>, id: nat, k: nat, p: Proposal, party: string)
    requires Possible(cfg, steps) && LookedUp(cfg, steps, id, k, p, party)
    ensures var w := After(cfg, steps);
            id in w.booked && w.booked[id] in w.placements && !HoldsGuard(w.placements[w.booked[id]].phase)
  {
    var w := After(cfg, steps[..k]);
    LookedUpExactlyWhenNothingHolds(cfg, steps[..k], p, p.orderMatch.value.bidOrderId, p.orderMatch.value.offerOrderId, party);
    assert NothingHolds(w, p.market);
    UnguardedStays(cfg, steps, k, id);
  }

  lemma UntrackedKept(cfg: Config, steps: seq<Step>, s: Step, id: nat)
    requires Possible(cfg, steps) && Enabled(After(cfg, steps), s) && Honest(cfg, steps, s) && Consistent(After(cfg, steps))
    ensures UntrackedWhileGuarded(Do(cfg, After(cfg, steps), s), id)
  {
    var w := After(cfg, steps);
    assert UntrackedWhileGuarded(w, id);
    SubmitsStay(cfg, w, s);
    if s.Settlement? {
      if id in w.booked && id !in w.t.orders && id in Do(cfg, w, s).t.orders {
        NewlyTracked(cfg, w.t, s.event, w.now, id);
        if s.event.Adopt? {
          AdoptedIsFailed(w, s.event.listed);
        } else {
          var k: nat, p, party :| LookedUp(cfg, steps, id, k, p, party);
          LookedUpIsOver(cfg, steps, id, k, p, party);
        }
      }
    } else {
      OtherStepsTrack(cfg, w, s, id);
    }
  }

  lemma OtherStepsTrack(cfg: Config, w: World, s: Step, id: nat)
    requires Enabled(w, s) && !s.Settlement? && UntrackedWhileGuarded(w, id)
    requires s.TrackAnswered? ==> AnsweredAsBooked(w, s.pid)
    ensures UntrackedWhileGuarded(Do(cfg, w, s), id)
  {
    hide BeginPlacement, EndPlacement, NoteSubmitFailed;
    assert forall m :: BeginPlacement(w.t, m).orders == w.t.orders by { PlacingKeepsOrders(w.t); }
    assert forall t, m :: EndPlacement(t, m).orders == t.orders by { EndingKeepsOrders(); }
    assert forall n :: NoteSubmitFailed(w.t, n, w.now).orders == w.t.orders by { NotingKeepsOrders(w.t, w.now); }
  }

  lemma PlacingKeepsOrders(t: Tracker)
    ensures forall m :: BeginPlacement(t, m).orders == t.orders
  {
  }

  lemma EndingKeepsOrders()
    ensures forall t, m :: EndPlacement(t, m).orders == t.orders
  {
  }

  lemma NotingKeepsOrders(t: Tracker, now: nat)
    ensures forall n :: NoteSubmitFailed(t, n, now).orders == t.orders
  {
  }

  lemma {:induction false} AlwaysConsistent(cfg: Config, steps: seq<Step>)
    requires Possible(cfg, steps) && HonestRun(cfg, steps)
    ensures Consistent(After(cfg, steps))
  {
    if steps != [] {
      var n := |steps| - 1;
      var w := After(cfg, steps[..n]);
      AlwaysConsistent(cfg, steps[..n]);
      hide Do, Enabled, QueueApart, QueueFromFailures, UntrackedWhileGuarded, AnsweredAsBooked;
      QueueApartKept(cfg, w, steps[n]);
      QueueFromFailuresKept(cfg, w, steps[n]);
      forall id ensures UntrackedWhileGuarded(After(cfg, steps), id) {
        UntrackedKept(cfg, steps[..n], steps[n], id);
      }
      forall pid ensures AnsweredAsBooked(After(cfg, steps), pid) {
        assert AnsweredAsBooked(w, pid);
        AnsweredAsBookedKept(cfg, w, steps[n], pid);
      }
    }
  }

  /** Tracking a placed order never overwrites a tracked one: whenever its reply is in, its id is untracked. */
  lemma TrackingNeverOverwrites(cfg: Config, steps: seq<Step>, pid: nat)
    requires Possible(cfg, steps) && HonestRun(cfg, steps)
    requires Enabled(After(cfg, steps), TrackAnswered(pid))
    ensures var w := After(cfg, steps); w.placements[pid].phase.orderId !in w.t.orders
  {
    AlwaysConsistent(cfg, steps);
    var w := After(cfg, steps);
    assert AnsweredAsBooked(w, pid);
    assert UntrackedWhileGuarded(w, w.placements[pid].phase.orderId);
  }

  // Interleavings are legal histories

  /** What a step does to the tracker, as events of its history. */
  function EventsOf(w: World, s: Step): seq<Accounting.Event>
    requires Enabled(w, s)
  {
    match s
    case Sign(_, submit) => [Accounting.Begin(submit.market)]
    case ReplyRefusal(pid) => [Accounting.End(w.placements[pid].submit.market)]
    case NoteLost(pid) => [Accounting.Note(w.placements[pid].submit), Accounting.End(w.placements[pid].submit.market)]
    case TrackAnswered(pid) =>
      var pl := w.placements[pid];
      [Accounting.Track(pl.phase.orderId, pl.submit), Accounting.End(pl.submit.market)]
    case Settlement(e) => [e]
    case _ => []
  }

  function Stamp(events: seq<Accounting.Event>, now: nat): seq<Accounting.Timed> {
    seq(|events|, i requires 0 <= i < |events| => Accounting.Timed(events[i], now))
  }

  function History(cfg: Config, steps: seq<Step>): seq<Accounting.Timed>
    requires Possible(cfg, steps)
  {
    if steps == [] then []
    else
      var n := |steps| - 1;
      var w := After(cfg, steps[..n]);
      History(cfg, steps[..n]) + Stamp(EventsOf(w, steps[n]), w.now)
  }

  /** The history is legal and leads to this tracker. */
  ghost predicate Leads(cfg: Config, history: seq<Accounting.Timed>, t: Tracker, now: nat) {
    && Accounting.LegalHistory(cfg, history)
    && Accounting.After(cfg, history).t == t && Accounting.After(cfg, history).now <= now
  }

  lemma LeadsOneMore(cfg: Config, history: seq<Accounting.Timed>, t: Tracker, now: nat, e: Accounting.Event)
    requires Leads(cfg, history, t, now) && Accounting.Legal(cfg, t, e, now)
    ensures Leads(cfg, history + [Accounting.Timed(e, now)], Accounting.Apply(cfg, t, e, now), now)
  {
    assert (history + [Accounting.Timed(e, now)])[..|history|] == history;
    hide Accounting.Legal, Accounting.Apply;
  }

  function Applied(cfg: Config, t: Tracker, events: seq<Accounting.Event>, now: nat): Tracker
    decreases |events|
  {
    if events == [] then t else Applied(cfg, Accounting.Apply(cfg, t, events[0], now), events[1..], now)
  }

  ghost predicate AllLegal(cfg: Config, t: Tracker, events: seq<Accounting.Event>, now: nat)
    decreases |events|
  {
    events == [] ||
    (Accounting.Legal(cfg, t, events[0], now) && AllLegal(cfg, Accounting.Apply(cfg, t, events[0], now), events[1..], now))
  }

  lemma {:induction false} EventsLead(cfg: Config, history: seq<Accounting.Timed>, t: Tracker, now: nat, events: seq<Accounting.Event>)
    requires Leads(cfg, history, t, now) && AllLegal(cfg, t, events, now)
    ensures Leads(cfg, history + Stamp(events, now), Applied(cfg, t, events, now), now)
    decreases |events|
  {
    hide Leads, Accounting.Legal, Accounting.Apply;
    if events == [] {
      assert history + Stamp(events, now) == history;
    } else {
      var one := history + [Accounting.Timed(events[0], now)];
      LeadsOneMore(cfg, history, t, now, events[0]);
      EventsLead(cfg, one, Accounting.Apply(cfg, t, events[0], now), now, events[1..]);
      assert history + Stamp(events, now) == one + Stamp(events[1..], now);
    }
  }

  lemma AppliedTwo(cfg: Config, t: Tracker, a: Accounting.Event, b: Accounting.Event, now: nat)
    ensures Applied(cfg, t, [a, b], now) == Accounting.Apply(cfg, Accounting.Apply(cfg, t, a, now), b, now)
    ensures AllLegal(cfg, t, [a, b], now) <==> Accounting.Legal(cfg, t, a, now) && Accounting.Legal(cfg, Accounting.Apply(cfg, t, a, now), b, now)
  {
    hide Accounting.Apply, Accounting.Legal;
    assert [a, b][1..] == [b];
    AppliedOne(cfg, Accounting.Apply(cfg, t, a, now), b, now);
  }

  lemma AppliedOne(cfg: Config, t: Tracker, a: Accounting.Event, now: nat)
    ensures Applied(cfg, t, [a], now) == Accounting.Apply(cfg, t, a, now) && (AllLegal(cfg, t, [a], now) <==> Accounting.Legal(cfg, t, a, now))
  {
    hide Accounting.Apply, Accounting.Legal;
    assert [a][1..] == [];
  }

  /** The answered order is untracked and, unless it is an RFQ, nothing is reserved on it. */
  ghost predicate TracksFresh(w: World, pid: nat) {
    pid in w.placements && w.placements[pid].phase.Answered? &&
    var id := w.placements[pid].phase.orderId; id !in w.t.orders && (id != 0 ==> Accounting.Unreserved(w.t, id))
  }

  lemma StepIsEvents(cfg: Config, w: World, s: Step)
    requires Enabled(w, s)
    requires s.TrackAnswered? ==> TracksFresh(w, s.pid)
    requires s.Settlement? ==> Accounting.Legal(cfg, w.t, s.event, w.now)
    ensures Do(cfg, w, s).t == Applied(cfg, w.t, EventsOf(w, s), w.now) && AllLegal(cfg, w.t, EventsOf(w, s), w.now)
    ensures Do(cfg, w, s).now >= w.now
  {
    hide Applied, AllLegal, BeginPlacement, EndPlacement, NoteSubmitFailed, TrackOrder;
    var events := EventsOf(w, s);
    if |events| == 2 {
      AppliedTwo(cfg, w.t, events[0], events[1], w.now);
      assert events == [events[0], events[1]];
    } else if |events| == 1 {
      AppliedOne(cfg, w.t, events[0], w.now);
      assert events == [events[0]];
    } else {
      AppliedNone(cfg, w.t, w.now);
    }
  }

  lemma AppliedNone(cfg: Config, t: Tracker, now: nat)
    ensures Applied(cfg, t, [], now) == t && AllLegal(cfg, t, [], now)
  {
  }

  lemma StepLeads(cfg: Config, history: seq<Accounting.Timed>, w: World, s: Step)
    requires Enabled(w, s) && Leads(cfg, history, w.t, w.now)
    requires s.TrackAnswered? ==> TracksFresh(w, s.pid)
    requires s.Settlement? ==> Accounting.Legal(cfg, w.t, s.event, w.now)
    ensures Leads(cfg, history + Stamp(EventsOf(w, s), w.now), Do(cfg, w, s).t, Do(cfg, w, s).now)
  {
    StepIsEvents(cfg, w, s);
    hide Leads, Do, Enabled, EventsOf, Stamp, Applied, AllLegal;
    EventsLead(cfg, history, w.t, w.now, EventsOf(w, s));
    LeadsLater(cfg, history + Stamp(EventsOf(w, s), w.now), Do(cfg, w, s).t, w.now, Do(cfg, w, s).now);
  }

  lemma LeadsLater(cfg: Config, history: seq<Accounting.Timed>, t: Tracker, now: nat, later: nat)
    requires Leads(cfg, history, t, now) && now <= later
    ensures Leads(cfg, history, t, later)
  {
  }

  /** Every interleaving takes the tracker through a legal history of its operations. */
  lemma {:induction false} InterleavingsAreLegal(cfg: Config, steps: seq<Step>)
    requires Possible(cfg, steps) && HonestRun(cfg, steps)
    ensures Leads(cfg, History(cfg, steps), After(cfg, steps).t, After(cfg, steps).now)
  {
    if steps != [] {
      var n := |steps| - 1;
      var w := After(cfg, steps[..n]);
      InterleavingsAreLegal(cfg, steps[..n]);
      if steps[n].TrackAnswered? {
        TrackingNeverOverwrites(cfg, steps[..n], steps[n].pid);
      }
      hide Leads, Do;
      StepLeads(cfg, History(cfg, steps[..n]), w, steps[n]);
    }
  }

  /** So the capacity accounting of the tracker holds in every interleaving of placements, lookups and settlement. */
  lemma CapacityConservedInterleaved(cfg: Config, steps: seq<Step>, id: nat)
    requires Possible(cfg, steps) && HonestRun(cfg, steps) && id != 0 && id in After(cfg, steps).t.orders
    ensures var r := Accounting.After(cfg, History(cfg, steps));
            && r.t == After(cfg, steps).t && id in r.base
            && Accounting.Balanced(r.t.orders[id], r.base[id], Accounting.Filled(r, id), Accounting.ReservedFor(r.t.entries, id))
  {
    InterleavingsAreLegal(cfg, steps);
    Accounting.CapacityConserved(cfg, History(cfg, steps));
    hide Accounting.Balanced, Accounting.After, History;
    assert Accounting.OrderBooked(Accounting.After(cfg, History(cfg, steps)), id);
  }

  // When every proposal is verified before it is recorded

  /** Settlement records an entry only for a tracked order, or an RFQ. */
  ghost predicate Verifying(w: World, s: Step) {
    s.Settlement? && s.event.Adopted? ==>
      s.event.quantity >= 0.0 && (s.event.orderId == 0 || s.event.orderId in w.t.orders)
  }

  ghost predicate VerifyingRun(cfg: Config, steps: seq<Step>)
    requires Possible(cfg, steps)
  {
    steps == [] ||
    var before, s := steps[..|steps| - 1], steps[|steps| - 1];
    VerifyingRun(cfg, before) && Verifying(After(cfg, before), s) && Truthful(cfg, before, s)
  }

  lemma StepKeepsEntriesTracked(cfg: Config, w: World, s: Step)
    requires Enabled(w, s) && Verifying(w, s) && Accounting.EntriesTracked(w.t)
    ensures Accounting.EntriesTracked(Do(cfg, w, s).t)
  {
    if s.Settlement? {
      Accounting.EntriesStayTracked(cfg, w.t, s.event, w.now);
    }
    hide Accounting.Apply;
  }

  /** Verifying every proposal leaves nothing reserved too early, so such runs are honest. */
  lemma {:induction false} VerifyingIsHonest(cfg: Config, steps: seq<Step>)
    requires Possible(cfg, steps) && VerifyingRun(cfg, steps)
    ensures HonestRun(cfg, steps) && Accounting.EntriesTracked(After(cfg, steps).t)
  {
    if steps != [] {
      var n := |steps| - 1;
      var w := After(cfg, steps[..n]);
      VerifyingIsHonest(cfg, steps[..n]);
      hide Do, Enabled, Truthful, Accounting.EntriesTracked;
      StepKeepsEntriesTracked(cfg, w, steps[n]);
      VerifyingIsAccountable(cfg, w, steps[n]);
    }
  }

  lemma VerifyingIsAccountable(cfg: Config, w: World, s: Step)
    requires Enabled(w, s) && Verifying(w, s) && Accounting.EntriesTracked(w.t)
    ensures Accountable(cfg, w, s)
  {
    forall id | id != 0 && id !in w.t.orders ensures Accounting.Unreserved(w.t, id) {
      Accounting.TrackedEntriesReserveNothingEarly(w.t, id);
    }
    hide Accounting.Unreserved, Accounting.EntriesTracked, Adoptable, ImportProblem;
    if s.Settlement? && Accounting.NewlyTracked(cfg, w.t, s.event, w.now).Some? {
      Accounting.NewOrder(cfg, w.t, s.event, w.now, Accounting.NewlyTracked(cfg, w.t, s.event, w.now).value);
    }
  }

  // Why a payload still queued must not be signed again

  /** One payload signed twice in a millisecond: its first submit is lost and noted, its second is booked as order 7. */
  const TWICE := FailedSubmit("M", Some(10.0), 1, "sig", [])
  const LISTED := ServerOrder(7, "M", 1, Some("sig"), [], None, None, None)

  lemma PossibleOneMore(cfg: Config, steps: seq<Step>, s: Step)
    requires Possible(cfg, steps) && Enabled(After(cfg, steps), s)
    ensures Possible(cfg, steps + [s]) && After(cfg, steps + [s]) == Do(cfg, After(cfg, steps), s)
  {
    assert (steps + [s])[..|steps|] == steps;
  }

  const NOTED := Tracker(map[], map[], map[], map["M" := 0], [Noted(0, TWICE)])
  const FIRST := Placement(TWICE, FailedAt(0))

  lemma NoteOnly()
    ensures EndPlacement(NoteSubmitFailed(EMPTY.(placing := map["M" := 1]), TWICE, 0), "M") == NOTED
  {
    assert Prune([], 0) == [];
  }

  lemma FirstIsNoted(cfg: Config) returns (steps: seq<Step>)
    ensures Possible(cfg, steps) && After(cfg, steps) == World(NOTED, 0, map[0 := FIRST], map[])
  {
    steps := [];
    assert Possible(cfg, steps) && After(cfg, steps) == QUIET;
    hide Possible, After;
    steps := Take(cfg, steps, Sign(0, TWICE));
    assert After(cfg, steps).t == EMPTY.(placing := map["M" := 1]);
    NoteOnly();
    hide EndPlacement, NoteSubmitFailed, BeginPlacement;
    steps := Take(cfg, steps, LoseReply(0));
    steps := Take(cfg, steps, NoteLost(0));
  }

  lemma SecondIsAnswered(cfg: Config) returns (steps: seq<Step>)
    ensures Possible(cfg, steps)
    ensures After(cfg, steps) ==
              World(NOTED.(placing := map["M" := 1]), 0, map[0 := FIRST, 1 := Placement(TWICE, Answered(7))], map[7 := 1])
  {
    steps := FirstIsNoted(cfg);
    hide Possible, After;
    steps := Take(cfg, steps, Sign(1, TWICE));
    assert 1 !in After(cfg, steps).booked.Values;
    steps := Take(cfg, steps, Book(1, 7));
    steps := Take(cfg, steps, ReplySuccess(1, 7));
  }

  lemma AdoptsAsFirst(cfg: Config)
    ensures var t := Accounting.Apply(cfg, NOTED.(placing := map["M" := 1]), Accounting.Adopt(LISTED), 0);
            7 in t.orders && t.orders[7] == TrackedOrder("M", 10.0, 0.0, 0.0, 1, "sig", [], true, true) && t.entries == map[]
  {
    assert Prune([Noted(0, TWICE)], 0) == [Noted(0, TWICE)];
  }

  /**
   With one payload signed twice, the listing adopts the second submit's order as the first's while its reply is
   on its way, and tracking the reply overwrites it with everything reserved on it.
   */
  lemma EqualPayloadsOverwrite(cfg: Config) returns (steps: seq<Step>)
    ensures Possible(cfg, steps) && Enabled(After(cfg, steps), TrackAnswered(1))
    ensures var w := After(cfg, steps); var w' := Do(cfg, w, TrackAnswered(1));
            && 7 in w.t.orders && w.t.orders[7].pending == 5.0 && 7 in w'.t.orders && w'.t.orders[7].pending == 0.0
  {
    steps := SecondIsAnswered(cfg);
    hide Possible, After, AdoptFailedSubmit, Prune, FirstMatch;
    AdoptsAsFirst(cfg);
    steps := Take(cfg, steps, Settlement(Accounting.Adopt(LISTED)));
    steps := Take(cfg, steps, Settlement(Accounting.Adopted("p", 7, 5.0)));
    assert After(cfg, steps).t.entries == map["p" := Entry(7, 5.0, false)];
    steps := Take(cfg, steps, Settlement(Accounting.Reserve("p")));
  }

  lemma Take(cfg: Config, steps: seq<Step>, s: Step) returns (more: seq<Step>)
    requires Possible(cfg, steps) && Enabled(After(cfg, steps), s)
    ensures Possible(cfg, more) && After(cfg, more) == Do(cfg, After(cfg, steps), s)
  {
    more := steps + [s];
    PossibleOneMore(cfg, steps, s);
  }
}
