/**
 Placing an order races with proposals that match it: the server may book the order, and a proposal may
 arrive, before the reply does. Every section run under the tracker lock, and every dropped guard, is one
 atomic step; steps of any number of placements, the server and the settlement side interleave freely.
 */
module PlacementProtocol {
  import opened Wrappers
  import opened OrderTracking
  import opened TrackerAccounting

  datatype Phase =
    | InFlight                // signed and submitted; guard held
    | Answered(orderId: nat)  // success reply received, order not yet tracked; guard held
    | Lost                    // submit errored with unknown outcome, not yet noted; guard held
    | FailedAt(at: nat)       // noted as failed; guard dropped
    | Refused                 // definitely not booked; guard dropped
    | Completed               // tracked; guard dropped

  datatype Placement = Placement(submit: FailedSubmit, phase: Phase)

  /** `booked` maps each order the server booked from one of our submits to that placement. */
  datatype World = World(t: Tracker, now: nat, placements: map<nat, Placement>, booked: map<nat, nat>)

  const QUIET := World(EMPTY, 0, map[], map[])

  datatype Step =
    | Sign(pid: nat, submit: FailedSubmit)
    | Book(pid: nat, orderId: nat)
    | ReplySuccess(pid: nat, orderId: nat)
    | ReplyRefusal(pid: nat)
    | LoseReply(pid: nat)
    | NoteLost(pid: nat)
    | TrackAnswered(pid: nat)
    | Settlement(event: Event)
    | Wait(until: nat)

  predicate HoldsGuard(phase: Phase) {
    phase.InFlight? || phase.Answered? || phase.Lost?
  }

  predicate At(w: World, pid: nat, phase: Phase) {
    pid in w.placements && w.placements[pid].phase == phase
  }

  predicate Enabled(w: World, s: Step) {
    match s
    case Sign(pid, submit) => pid !in w.placements && Count(w.t, submit.market) < USIZE_MAX // live guards of the market
    case Book(pid, id) =>
      && pid in w.placements && (var ph := w.placements[pid].phase; ph.InFlight? || ph.Lost? || ph.FailedAt?)
      && id !in w.booked && id !in w.t.orders && pid !in w.booked.Values
    case ReplySuccess(pid, id) => At(w, pid, InFlight) && id in w.booked && w.booked[id] == pid
    case ReplyRefusal(pid) => At(w, pid, InFlight) && pid !in w.booked.Values
    case LoseReply(pid) => At(w, pid, InFlight)
    case NoteLost(pid) => At(w, pid, Lost)
    case TrackAnswered(pid) => pid in w.placements && w.placements[pid].phase.Answered?
    case Settlement(e) => !e.Begin? && !e.End? && !e.Note? && !e.Track?
    case Wait(until) => w.now <= until
  }

  function Moved(w: World, t: Tracker, pid: nat, phase: Phase): World
    requires pid in w.placements
  {
    w.(t := t, placements := w.placements[pid := w.placements[pid].(phase := phase)])
  }

  function Do(cfg: Config, w: World, s: Step): World
    requires Enabled(w, s)
  {
    match s
    case Sign(pid, submit) =>
      w.(t := BeginPlacement(w.t, submit.market), placements := w.placements[pid := Placement(submit, InFlight)])
    case Book(pid, id) => w.(booked := w.booked[id := pid])
    case ReplySuccess(pid, id) => Moved(w, w.t, pid, Answered(id))
    case ReplyRefusal(pid) => Moved(w, EndPlacement(w.t, w.placements[pid].submit.market), pid, Refused)
    case LoseReply(pid) => Moved(w, w.t, pid, Lost)
    case NoteLost(pid) =>
      var submit := w.placements[pid].submit;
      Moved(w, EndPlacement(NoteSubmitFailed(w.t, submit, w.now), submit.market), pid, FailedAt(w.now))
    case TrackAnswered(pid) =>
      var pl := w.placements[pid];
      Moved(w, EndPlacement(TrackOrder(w.t, pl.phase.orderId, pl.submit), pl.submit.market), pid, Completed)
    case Settlement(e) => w.(t := Apply(cfg, w.t, e, w.now))
    case Wait(until) => w.(now := until)
  }

  predicate Possible(cfg: Config, steps: seq<Step>)
    decreases |steps|, 0
  {
    steps == [] ||
    (Possible(cfg, steps[..|steps| - 1]) && Enabled(After(cfg, steps[..|steps| - 1]), steps[|steps| - 1]))
  }

  function After(cfg: Config, steps: seq<Step>): World
    requires Possible(cfg, steps)
    decreases |steps|, 1
  {
    if steps == [] then QUIET else Do(cfg, After(cfg, steps[..|steps| - 1]), steps[|steps| - 1])
  }

  // What every step keeps

  predicate Guarding(pl: Placement, market: string) {
    pl.submit.market == market && HoldsGuard(pl.phase)
  }

  ghost function Guards(placements: map<nat, Placement>, market: string): set<nat> {
    set pid | pid in placements && Guarding(placements[pid], market)
  }

  /** The shared count of a market is the number of its live guards. */
  ghost predicate CountsGuards(w: World) {
    forall m :: Count(w.t, m) == |Guards(w.placements, m)|
  }

  ghost predicate BookedSafely(w: World, id: nat) {
    id in w.booked ==>
      && w.booked[id] in w.placements
      && var ph := w.placements[w.booked[id]].phase;
      && !ph.Refused?
      && (ph.Answered? ==> ph.orderId == id)
      && (ph.Completed? ==> id in w.t.orders)
  }

  ghost predicate Injective(m: map<nat, nat>) {
    forall a, b :: a in m && b in m && m[a] == m[b] ==> a == b
  }

  ghost predicate BookedOnce(w: World) {
    && (forall id :: BookedSafely(w, id))
    && Injective(w.booked)
  }

  predicate FailedIn(w: World, pid: nat, market: string) {
    pid in w.placements && w.placements[pid].submit.market == market && w.placements[pid].phase.FailedAt?
  }

  /** A market's stamp is the time of its latest failed submit; a missing stamp means every failure is past the hold. */
  ghost predicate Stamped(w: World, market: string) {
    && (market in w.t.failedAt ==>
          && w.t.failedAt[market] <= w.now
          && exists pid :: FailedIn(w, pid, market) && w.placements[pid].phase.at == w.t.failedAt[market])
    && (forall pid :: FailedIn(w, pid, market) ==>
          && w.placements[pid].phase.at <= w.now
          && (if market in w.t.failedAt then w.placements[pid].phase.at <= w.t.failedAt[market]
              else w.now - w.placements[pid].phase.at >= SUBMIT_FAILED_HOLD))
  }

  ghost predicate Held(w: World) {
    && CountsGuards(w)
    && BookedOnce(w)
    && forall m :: Stamped(w, m)
  }

  lemma CardinalityMove(a: set<nat>, b: set<nat>, x: nat)
    requires a - {x} == b - {x}
    ensures |b| == |a| + (if x in b then 1 else 0) - (if x in a then 1 else 0)
  {
    assert |a - {x}| == |a| - if x in a then 1 else 0;
    assert |b - {x}| == |b| - if x in b then 1 else 0;
  }

  /** Setting one placement moves at most its own guard. */
  lemma GuardsMove(placements: map<nat, Placement>, pid: nat, pl: Placement, market: string)
    ensures |Guards(placements[pid := pl], market)|
            == |Guards(placements, market)| + (if Guarding(pl, market) then 1 else 0)
               - (if pid in placements && Guarding(placements[pid], market) then 1 else 0)
  {
    var a := Guards(placements, market);
    var b := Guards(placements[pid := pl], market);
    assert a - {pid} == b - {pid};
    CardinalityMove(a, b, pid);
  }

  lemma CountsAfter(t: Tracker, from: string, market: string)
    ensures Count(t, from) < USIZE_MAX ==>
              Count(BeginPlacement(t, from), market) == Count(t, market) + (if market == from then 1 else 0)
    ensures Count(t, from) > 0 ==>
              Count(EndPlacement(t, from), market) == Count(t, market) - (if market == from then 1 else 0)
  {
  }

  lemma SignCount(w: World, pid: nat, submit: FailedSubmit, m: string)
    requires Enabled(w, Sign(pid, submit)) && CountsGuards(w)
    ensures Count(BeginPlacement(w.t, submit.market), m) == |Guards(w.placements[pid := Placement(submit, InFlight)], m)|
  {
    assert Count(w.t, m) == |Guards(w.placements, m)|;
    CountsAfter(w.t, submit.market, m);
    GuardsMove(w.placements, pid, Placement(submit, InFlight), m);
  }

  /** A placement changes phase, dropping its guard as it leaves the guarded phases. */
  lemma MoveCount(w: World, pid: nat, phase: Phase, m: string)
    requires CountsGuards(w) && pid in w.placements && HoldsGuard(w.placements[pid].phase)
    ensures var pl := w.placements[pid];
            var t' := if HoldsGuard(phase) then w.t else EndPlacement(w.t, pl.submit.market);
            Count(t', m) == |Guards(w.placements[pid := pl.(phase := phase)], m)|
  {
    var pl := w.placements[pid];
    assert Count(w.t, m) == |Guards(w.placements, m)|;
    GuardsMove(w.placements, pid, pl.(phase := phase), m);
    if m == pl.submit.market {
      assert pid in Guards(w.placements, m);
    }
    assert m == pl.submit.market ==> Count(w.t, m) > 0;
    if Count(w.t, pl.submit.market) > 0 {
      CountsAfter(w.t, pl.submit.market, m);
    }
  }

  predicate MovesPlacement(s: Step) {
    s.ReplySuccess? || s.ReplyRefusal? || s.LoseReply? || s.NoteLost? || s.TrackAnswered?
  }

  lemma PlacingAfter(cfg: Config, w: World, s: Step)
    requires Enabled(w, s)
    ensures !s.Sign? && !MovesPlacement(s) ==>
              Do(cfg, w, s).t.placing == w.t.placing && Do(cfg, w, s).placements == w.placements
    ensures MovesPlacement(s) ==>
              var pl := w.placements[s.pid]; var w' := Do(cfg, w, s); var phase := w'.placements[s.pid].phase;
              && HoldsGuard(pl.phase)
              && w'.placements == w.placements[s.pid := pl.(phase := phase)]
              && w'.t.placing == if HoldsGuard(phase) then w.t.placing else Lowered(w.t.placing, pl.submit.market)
  {
    if s.Settlement? {
      MarksKept(cfg, w.t, s.event, w.now);
    }
    hide Apply, Lowered, Prune, DropOldest;
  }

  lemma CountKept(cfg: Config, w: World, s: Step, m: string)
    requires Enabled(w, s) && CountsGuards(w)
    ensures Count(Do(cfg, w, s).t, m) == |Guards(Do(cfg, w, s).placements, m)|
  {
    var w' := Do(cfg, w, s);
    if s.Sign? {
      SignCount(w, s.pid, s.submit, m);
    } else {
      PlacingAfter(cfg, w, s);
      if MovesPlacement(s) {
        MoveCount(w, s.pid, w'.placements[s.pid].phase, m);
      } else {
        assert Count(w.t, m) == |Guards(w.placements, m)|;
      }
    }
  }

  lemma BookedSafelyKept(cfg: Config, w: World, s: Step, id: nat)
    requires Enabled(w, s) && BookedSafely(w, id) && Injective(w.booked)
    ensures BookedSafely(Do(cfg, w, s), id)
  {
    OrdersKept(cfg, w, s);
    if id in w.booked {
      assert w.booked[id] in w.booked.Values;
    }
    hide Apply, BeginPlacement, EndPlacement, NoteSubmitFailed;
  }

  lemma OrdersKept(cfg: Config, w: World, s: Step)
    requires Enabled(w, s)
    ensures w.t.orders.Keys <= Do(cfg, w, s).t.orders.Keys
    ensures s.TrackAnswered? ==> w.placements[s.pid].phase.orderId in Do(cfg, w, s).t.orders
  {
    if s.Settlement? {
      OrdersStayTracked(cfg, w.t, s.event, w.now);
      hide Apply;
    }
  }

  lemma BookedOnceKept(cfg: Config, w: World, s: Step)
    requires Enabled(w, s) && BookedOnce(w)
    ensures Injective(Do(cfg, w, s).booked)
  {
    var w' := Do(cfg, w, s);
    if s.Book? {
      assert forall id :: id in w.booked ==> w.booked[id] in w.booked.Values;
    } else {
      assert w'.booked == w.booked;
    }
  }

  lemma NoteStamps(w: World, pid: nat, market: string)
    requires At(w, pid, Lost) && Stamped(w, market)
    ensures var submit := w.placements[pid].submit;
            Stamped(Moved(w, EndPlacement(NoteSubmitFailed(w.t, submit, w.now), submit.market), pid, FailedAt(w.now)), market)
  {
    var submit := w.placements[pid].submit;
    var w' := Moved(w, EndPlacement(NoteSubmitFailed(w.t, submit, w.now), submit.market), pid, FailedAt(w.now));
    if submit.market == market {
      assert FailedIn(w', pid, market) && w'.placements[pid].phase.at == w'.t.failedAt[market];
    } else if market in w'.t.failedAt {
      var latest :| FailedIn(w, latest, market) && w.placements[latest].phase.at == w.t.failedAt[market];
      assert FailedIn(w', latest, market);
    }
    forall other | FailedIn(w', other, market) && other != pid
      ensures FailedIn(w, other, market) && w'.placements[other] == w.placements[other]
    {
    }
  }

  lemma OtherStepsLeaveFailures(cfg: Config, w: World, s: Step, pid: nat, market: string)
    requires Enabled(w, s) && !s.NoteLost?
    ensures var w' := Do(cfg, w, s);
            && w'.t.failedAt == w.t.failedAt && w.now <= w'.now
            && (FailedIn(w', pid, market) <==> FailedIn(w, pid, market))
            && (FailedIn(w, pid, market) ==> w'.placements[pid] == w.placements[pid])
  {
    if s.Settlement? {
      MarksKept(cfg, w.t, s.event, w.now);
    }
    hide Apply;
  }

  /** Settlement work touches neither the placement counts nor the failure stamps. */
  lemma MarksKept(cfg: Config, t: Tracker, e: Event, now: nat)
    requires !e.Begin? && !e.End? && !e.Note?
    ensures Apply(cfg, t, e, now).failedAt == t.failedAt && Apply(cfg, t, e, now).placing == t.placing
  {
    hide Prune, FirstMatch, RemainingCapacity;
  }

  lemma StampKept(cfg: Config, w: World, s: Step, market: string)
    requires Enabled(w, s) && Stamped(w, market)
    ensures Stamped(Do(cfg, w, s), market)
  {
    if s.NoteLost? {
      NoteStamps(w, s.pid, market);
    } else {
      forall pid ensures var w' := Do(cfg, w, s);
            && w'.t.failedAt == w.t.failedAt && w.now <= w'.now
            && (FailedIn(w', pid, market) <==> FailedIn(w, pid, market))
            && (FailedIn(w, pid, market) ==> w'.placements[pid] == w.placements[pid])
      {
        OtherStepsLeaveFailures(cfg, w, s, pid, market);
      }
      if market in w.t.failedAt {
        var latest :| FailedIn(w, latest, market) && w.placements[latest].phase.at == w.t.failedAt[market];
        assert FailedIn(Do(cfg, w, s), latest, market);
      }
    }
  }

  lemma {:induction false} HeldAlways(cfg: Config, steps: seq<Step>)
    requires Possible(cfg, steps)
    ensures Held(After(cfg, steps))
  {
    if steps == [] {
      assert forall m :: Guards(QUIET.placements, m) == {};
    } else {
      var before := steps[..|steps| - 1];
      var s := steps[|steps| - 1];
      HeldAlways(cfg, before);
      forall m ensures Count(After(cfg, steps).t, m) == |Guards(After(cfg, steps).placements, m)| && Stamped(After(cfg, steps), m) {
        CountKept(cfg, After(cfg, before), s, m);
        StampKept(cfg, After(cfg, before), s, m);
      }
      forall id ensures BookedSafely(After(cfg, steps), id) {
        BookedSafelyKept(cfg, After(cfg, before), s, id);
      }
      BookedOnceKept(cfg, After(cfg, before), s);
    }
  }

  /** No placement in the market holds a guard, and none failed in the last 60 s. */
  ghost predicate NothingHolds(w: World, market: string) {
    && (forall pid :: pid in w.placements && w.placements[pid].submit.market == market ==>
          w.placements[pid].phase.FailedAt? || w.placements[pid].phase.Refused? || w.placements[pid].phase.Completed?)
    && forall pid :: FailedIn(w, pid, market) ==> w.now - w.placements[pid].phase.at >= 60_000
  }

  lemma NoGuards(w: World, market: string)
    ensures Guards(w.placements, market) == {} <==>
              forall pid :: pid in w.placements && w.placements[pid].submit.market == market ==>
                w.placements[pid].phase.FailedAt? || w.placements[pid].phase.Refused? || w.placements[pid].phase.Completed?
  {
    if Guards(w.placements, market) == {} {
      forall pid | pid in w.placements && w.placements[pid].submit.market == market ensures !HoldsGuard(w.placements[pid].phase) {
        assert pid !in Guards(w.placements, market);
      }
    }
  }

  /**
   In every interleaving a proposal is answered about our bid when we buy and about our offer when we sell: an
   untracked order is looked up on the server exactly when nothing in its market holds it back, that is, no
   placement is between signing and tracking and no submit failed in the last 60 s, and held otherwise.
   */
  lemma LookedUpExactlyWhenNothingHolds(cfg: Config, steps: seq<Step>, p: Proposal, bid: nat, offer: nat, party: string)
    requires Possible(cfg, steps) && p.orderMatch == Some(OrderMatch(bid, offer))
    ensures var w := After(cfg, steps); var id := if p.buyer == party then bid else offer;
            var verdict := VerifySettlement(cfg, w.t, p, party, w.now);
            && (id in w.t.orders ==> verdict == Accepted(id) || verdict.Rejected?)
            && (verdict == NeedServerLookup(id) <==> id !in w.t.orders && NothingHolds(w, p.market))
            && (verdict == PlacementInFlight(id) <==> id !in w.t.orders && !NothingHolds(w, p.market))
  {
    HeldAlways(cfg, steps);
    var w := After(cfg, steps);
    assert Stamped(w, p.market);
    assert Count(w.t, p.market) == |Guards(w.placements, p.market)|;
    NoGuards(w, p.market);
    if SubmitFailedRecently(w.t, p.market, w.now) {
      var pid :| FailedIn(w, pid, p.market) && w.placements[pid].phase.at == w.t.failedAt[p.market];
    }
    hide After, Possible, Guards, Held;
  }

  /**
   A proposal for an order booked from one of our submits is never sent to server lookup: not from signing
   until the order is tracked, nor within 60 s of the submit being noted as failed with unknown outcome.
   */
  lemma BookedOrderNeverLookedUp(cfg: Config, steps: seq<Step>, p: Proposal, bid: nat, offer: nat, party: string)
    requires Possible(cfg, steps) && p.orderMatch == Some(OrderMatch(bid, offer))
    requires var w := After(cfg, steps); var id := if p.buyer == party then bid else offer;
             && id in w.booked && w.booked[id] in w.placements
             && var pl := w.placements[w.booked[id]];
             && pl.submit.market == p.market
             && (pl.phase.FailedAt? && id !in w.t.orders ==> w.now - pl.phase.at < 60_000)
    ensures var w := After(cfg, steps); var id := if p.buyer == party then bid else offer;
            var verdict := VerifySettlement(cfg, w.t, p, party, w.now);
            if id in w.t.orders then verdict == Accepted(id) || verdict.Rejected? else verdict == PlacementInFlight(id)
  {
    HeldAlways(cfg, steps);
    LookedUpExactlyWhenNothingHolds(cfg, steps, p, bid, offer, party);
    var w := After(cfg, steps);
    var id := if p.buyer == party then bid else offer;
    assert BookedSafely(w, id);
    assert w.placements[w.booked[id]].phase.FailedAt? ==> FailedIn(w, w.booked[id], p.market);
    hide After, Possible, Held;
  }
}
