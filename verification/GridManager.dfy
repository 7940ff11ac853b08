/**
 The grid manager at work on one market: operations that fail, the memory of failed cancels, and their retry.
 A call may also fail although the server carried it out.
 */
module GridManager {
  import opened Wrappers
  import opened GridPricing
  import opened GridOps
  import opened GridExecution
  import opened GridBook
  import opened GridVisit

  /** `Lost`: the call failed, but the server carried the operation out. */
  datatype Outcome = Succeeded | Refused | Lost

  const ALL_SUCCEED: nat -> Outcome := (i: nat) => Succeeded

  /** A market and its failed cancels; the book is the server's. */
  datatype Tended = Tended(market: Market, pending: set<nat>)

  /** The operations the server carried out; `answer(i)` is the outcome of the `i`-th. */
  function Effective(ops: seq<GridOp>, answer: nat -> Outcome): seq<GridOp> {
    if ops == [] then []
    else
      var n := |ops| - 1;
      Effective(ops[..n], answer) + if answer(n).Refused? then [] else [ops[n]]
  }

  function FailedCancels(ops: seq<GridOp>, answer: nat -> Outcome): set<nat> {
    set i | 0 <= i < |ops| && ops[i].CancelOp? && !answer(i).Succeeded? :: ops[i].orderId
  }

  predicate OfferPlaced(ops: seq<GridOp>, answer: nat -> Outcome) {
    exists i :: 0 <= i < |ops| && ops[i].PlaceOp? && ops[i].side.Offer? && answer(i).Succeeded?
  }

  function IdSet(book: seq<Resting>): set<nat> {
    set o | o in book :: o.id
  }

  function WithoutAll(book: seq<Resting>, ids: set<nat>): seq<Resting> {
    if book == [] then []
    else (if book[0].id in ids then [] else [book[0]]) + WithoutAll(book[1..], ids)
  }

  /** Failed cancels still listed, which the next visit retries first. */
  function Listed(t: Tended): set<nat> {
    t.pending * IdSet(t.market.book)
  }

  function Cancelled(t: Tended, retry: nat -> Outcome): set<nat> {
    set id | id in Listed(t) && retry(id).Succeeded?
  }

  function Gone(t: Tended, retry: nat -> Outcome): set<nat> {
    set id | id in Listed(t) && !retry(id).Refused?
  }

  /** The market as the manager plans it: its listing without what it knows to be cancelled. */
  function Seen(t: Tended, retry: nat -> Outcome): Market {
    t.market.(book := WithoutAll(t.market.book, Cancelled(t, retry)))
  }

  function ServerBook(t: Tended, retry: nat -> Outcome): seq<Resting> {
    WithoutAll(t.market.book, Gone(t, retry))
  }

  /** A visit: failed cancels retried, both sides planned, the plan carried out as far as its operations succeed. */
  function Attempted(t: Tended, x: Inputs, retry: nat -> Outcome, answer: nat -> Outcome): Tended {
    if x.bid == Unknown && x.offer == Unknown then t
    else
      var seen := Seen(t, retry);
      var ops := PlannedOps(seen, x);
      var done := Effective(ops, answer);
      Tended(Market(NextAnchors(seen, FinalPlan(seen, x), x.price), false,
                    if OfferPlaced(ops, answer) then Some(x.offerLevels) else t.market.lastShaped,
                    Exec(done, ServerBook(t, retry), t.market.next), t.market.next + |Places(done)|),
             (Listed(t) - Cancelled(t, retry)) + FailedCancels(ops, answer))
  }

  class GridMarket {
    var anchors: Anchors
    var restore: bool
    var lastShaped: Option<seq<Level>>
    var book: seq<Resting>
    var next: nat
    var pendingCancels: set<nat>

    ghost function State(): Tended
      reads this
    {
      Tended(Market(anchors, restore, lastShaped, book, next), pendingCancels)
    }

    /** Forgets failed cancels no longer listed, retries the others in any order, and returns the listing without those cancelled. */
    method RetryFailedCancels(retry: nat -> Outcome) returns (orders: seq<Resting>)
      modifies this`book, this`pendingCancels
      ensures orders == Seen(old(State()), retry).book
      ensures book == ServerBook(old(State()), retry)
      ensures pendingCancels == Listed(old(State())) - Cancelled(old(State()), retry)
    {
      hide WithoutAll, Without, Listed, Cancelled, Gone;
      ghost var t := State();
      NothingRetriedYet(t, retry);
      orders, pendingCancels := book, pendingCancels * IdSet(book);
      var ids := pendingCancels;
      while ids != {}
        invariant ids <= Listed(t)
        invariant orders == WithoutAll(t.market.book, Cancelled(t, retry) - ids)
        invariant book == WithoutAll(t.market.book, Gone(t, retry) - ids)
        invariant pendingCancels == Listed(t) - (Cancelled(t, retry) - ids)
      {
        var id :| id in ids;
        RetryStep(t, retry, ids, id);
        if !retry(id).Refused? {
          book := Without(book, id);
        }
        if retry(id).Succeeded? {
          orders := Without(orders, id);
          pendingCancels := pendingCancels - {id};
        }
        ids := ids - {id};
      }
      assert Cancelled(t, retry) - {} == Cancelled(t, retry) && Gone(t, retry) - {} == Gone(t, retry);
    }

    /** Runs operations in order until shutdown is seen before one of them; `stopped(i)` is that check. */
    method Execute(ops: seq<GridOp>, answer: nat -> Outcome, stopped: nat -> bool)
      returns (done: nat, failed: set<nat>, offerPlaced: bool)
      modifies this`book, this`next
      ensures done <= |ops| && (forall i :: 0 <= i < done ==> !stopped(i)) && (done < |ops| ==> stopped(done))
      ensures book == Exec(Effective(ops[..done], answer), old(book), old(next))
      ensures next == old(next) + |Places(Effective(ops[..done], answer))|
      ensures failed == FailedCancels(ops[..done], answer)
      ensures offerPlaced <==> OfferPlaced(ops[..done], answer)
    {
      done, failed, offerPlaced := 0, {}, false;
      while done < |ops| && !stopped(done)
        invariant done <= |ops| && forall i :: 0 <= i < done ==> !stopped(i)
        invariant book == Exec(Effective(ops[..done], answer), old(book), old(next))
        invariant next == old(next) + |Places(Effective(ops[..done], answer))|
        invariant failed == FailedCancels(ops[..done], answer)
        invariant offerPlaced <==> OfferPlaced(ops[..done], answer)
      {
        hide Exec, Effective, Places, FailedCancels, OfferPlaced, Without;
        OneMoreOp(ops, done, answer, old(book), old(next));
        var outcome := answer(done);
        match ops[done] {
          case CancelOp(id, _) =>
            if !outcome.Refused? {
              book := Without(book, id);
            }
            if !outcome.Succeeded? {
              failed := failed + {id};
            }
          case PlaceOp(side, price, _) =>
            if !outcome.Refused? {
              book := book + [Resting(next, side, price, false)];
              next := next + 1;
            }
            if outcome.Succeeded? {
              offerPlaced := offerPlaced || side == Offer;
            }
        }
        done := done + 1;
      }
    }

    /** Executes all operations of a plan made for `seen`, then stamps what the next visit goes by. */
    method CarryOut(seen: Market, plan: Plan, ops: seq<GridOp>, x: Inputs, answer: nat -> Outcome)
      modifies this
      ensures anchors == NextAnchors(seen, plan, x.price) && !restore
      ensures lastShaped == if OfferPlaced(ops, answer) then Some(x.offerLevels) else old(lastShaped)
      ensures book == Exec(Effective(ops, answer), old(book), old(next))
      ensures next == old(next) + |Places(Effective(ops, answer))|
      ensures pendingCancels == old(pendingCancels) + FailedCancels(ops, answer)
    {
      hide *;
      var done, failed, offerPlaced := Execute(ops, answer, i => false);
      assert ops[..done] == ops;
      if offerPlaced {
        lastShaped := Some(x.offerLevels);
      }
      pendingCancels := pendingCancels + failed;
      anchors, restore := NextAnchors(seen, plan, x.price), false;
    }

    /** One visit that no shutdown cuts short. */
    method Visit(x: Inputs, retry: nat -> Outcome, answer: nat -> Outcome)
      modifies this
      ensures State() == Attempted(old(State()), x, retry, answer)
    {
      hide Seen, ServerBook, Listed, Cancelled, FinalPlan, Ops, Effective, Exec, Places, FailedCancels, OfferPlaced, NextAnchors;
      if x.bid == Unknown && x.offer == Unknown {
        return;
      }
      SeenKeepsRest(State(), retry);
      var orders := RetryFailedCancels(retry);
      var seen := Market(anchors, restore, lastShaped, orders, next);
      assert seen == Seen(old(State()), retry);
      var plan := FinalPlan(seen, x);
      var ops := PlanOps(x.bidLevels, x.offerLevels, x.price, x.tick, orders, plan);
      CarryOut(seen, plan, ops, x, answer);
    }
  }

  lemma SeenKeepsRest(t: Tended, retry: nat -> Outcome)
    ensures Seen(t, retry) == t.market.(book := Seen(t, retry).book)
  {
  }

  lemma NothingRetriedYet(t: Tended, retry: nat -> Outcome)
    ensures Listed(t) == t.pending * IdSet(t.market.book)
    ensures Cancelled(t, retry) - Listed(t) == {} && Gone(t, retry) - Listed(t) == {}
    ensures WithoutAll(t.market.book, {}) == t.market.book
  {
    WithoutNone(t.market.book);
  }

  lemma RetryStep(t: Tended, retry: nat -> Outcome, ids: set<nat>, id: nat)
    requires id in ids && ids <= Listed(t)
    ensures var was, now := Cancelled(t, retry) - ids, Cancelled(t, retry) - (ids - {id});
            if retry(id).Succeeded?
            then now == was + {id} && WithoutAll(t.market.book, now) == Without(WithoutAll(t.market.book, was), id)
            else now == was
    ensures var was, now := Gone(t, retry) - ids, Gone(t, retry) - (ids - {id});
            if retry(id).Refused? then now == was
            else now == was + {id} && WithoutAll(t.market.book, now) == Without(WithoutAll(t.market.book, was), id)
  {
    hide WithoutAll, Without, Listed;
    WithoutOneMore(t.market.book, Cancelled(t, retry) - ids, id);
    WithoutOneMore(t.market.book, Gone(t, retry) - ids, id);
    assert retry(id).Succeeded? ==> Cancelled(t, retry) - (ids - {id}) == Cancelled(t, retry) - ids + {id};
    assert !retry(id).Refused? ==> Gone(t, retry) - (ids - {id}) == Gone(t, retry) - ids + {id};
  }

  lemma {:induction false} ExecAppend(ops: seq<GridOp>, op: GridOp, book: seq<Resting>, next: nat)
    ensures Exec(ops + [op], book, next) ==
              match op
              case CancelOp(id, _) => Without(Exec(ops, book, next), id)
              case PlaceOp(side, price, _) => Exec(ops, book, next) + [Resting(next + |Places(ops)|, side, price, false)]
    decreases |ops|
  {
    if ops == [] {
      assert ops + [op] == [op];
    } else {
      assert (ops + [op])[1..] == ops[1..] + [op];
      match ops[0] {
        case CancelOp(id, _) => ExecAppend(ops[1..], op, Without(book, id), next);
        case PlaceOp(s, p, _) => ExecAppend(ops[1..], op, book + [Resting(next, s, p, false)], next + 1);
      }
    }
  }

  lemma OneMoreOp(ops: seq<GridOp>, i: nat, answer: nat -> Outcome, book: seq<Resting>, next: nat)
    requires i < |ops|
    ensures var op := ops[i]; var before, after := ops[..i], ops[..i + 1];
            var was, count := Exec(Effective(before, answer), book, next), |Places(Effective(before, answer))|;
            && (answer(i).Refused? ==> Effective(after, answer) == Effective(before, answer))
            && (!answer(i).Refused? && op.CancelOp? ==>
                  Exec(Effective(after, answer), book, next) == Without(was, op.orderId)
                  && |Places(Effective(after, answer))| == count)
            && (!answer(i).Refused? && op.PlaceOp? ==>
                  Exec(Effective(after, answer), book, next) == was + [Resting(next + count, op.side, op.price, false)]
                  && |Places(Effective(after, answer))| == count + 1)
            && FailedCancels(after, answer) ==
                 FailedCancels(before, answer) + (if op.CancelOp? && !answer(i).Succeeded? then {op.orderId} else {})
            && (OfferPlaced(after, answer) <==>
                  OfferPlaced(before, answer) || (op.PlaceOp? && op.side.Offer? && answer(i).Succeeded?))
  {
    EffectiveOneMore(ops, i, answer);
    MarksOneMore(ops, i, answer);
    hide Effective, FailedCancels, OfferPlaced;
    var done := Effective(ops[..i], answer);
    ExecAppend(done, ops[i], book, next);
    PlacesConcat(done, [ops[i]]);
    assert Places([ops[i]]) == if ops[i].PlaceOp? then [ops[i]] else [];
    hide Exec, Places;
  }

  lemma EffectiveOneMore(ops: seq<GridOp>, i: nat, answer: nat -> Outcome)
    requires i < |ops|
    ensures Effective(ops[..i + 1], answer) ==
              if answer(i).Refused? then Effective(ops[..i], answer) else Effective(ops[..i], answer) + [ops[i]]
  {
    assert ops[..i + 1][..i] == ops[..i];
  }

  lemma MarksOneMore(ops: seq<GridOp>, i: nat, answer: nat -> Outcome)
    requires i < |ops|
    ensures var op := ops[i]; var before, after := ops[..i], ops[..i + 1];
            && FailedCancels(after, answer) ==
                 FailedCancels(before, answer) + (if op.CancelOp? && !answer(i).Succeeded? then {op.orderId} else {})
            && (OfferPlaced(after, answer) <==>
                  OfferPlaced(before, answer) || (op.PlaceOp? && op.side.Offer? && answer(i).Succeeded?))
  {
    var before, after := ops[..i], ops[..i + 1];
    assert after == before + [ops[i]];
    assert forall j :: 0 <= j < i ==> after[j] == before[j];
    if OfferPlaced(before, answer) {
      var j :| 0 <= j < i && before[j].PlaceOp? && before[j].side.Offer? && answer(j).Succeeded?;
      assert after[j] == before[j];
    }
    assert after[i] == ops[i];
  }

  lemma {:induction false} WithoutNone(book: seq<Resting>)
    ensures WithoutAll(book, {}) == book
  {
    if book != [] {
      WithoutNone(book[1..]);
    }
  }

  lemma {:induction false} WithoutOneMore(book: seq<Resting>, ids: set<nat>, id: nat)
    ensures WithoutAll(book, ids + {id}) == Without(WithoutAll(book, ids), id)
  {
    if book != [] {
      WithoutOneMore(book[1..], ids, id);
      var rest := WithoutAll(book[1..], ids);
      assert ([book[0]] + rest)[1..] == rest && [] + rest == rest;
      assert Without([book[0]] + rest, id) == (if book[0].id == id then [] else [book[0]]) + Without(rest, id);
    }
  }

  lemma {:induction false} WithoutAllMembers(book: seq<Resting>, ids: set<nat>)
    ensures forall o :: o in WithoutAll(book, ids) <==> o in book && o.id !in ids
    ensures Distinct(book) ==> Distinct(WithoutAll(book, ids))
  {
    if book != [] {
      WithoutAllMembers(book[1..], ids);
      if Distinct(book) {
        assert forall o :: o in book[1..] ==> o.id != book[0].id;
      }
    }
  }

  /**
   A retry concerns exactly the remembered orders still listed: what is planned with leaves out those whose cancel
   succeeded, the server's book also those carried out in vain, and the former alone are forgotten.
   */
  lemma RetryExactly(t: Tended, retry: nat -> Outcome, o: Resting, id: nat)
    ensures o in Seen(t, retry).book <==> o in t.market.book && !(o.id in t.pending && retry(o.id) == Succeeded)
    ensures o in ServerBook(t, retry) <==> o in t.market.book && !(o.id in t.pending && retry(o.id) != Refused)
    ensures id in Listed(t) - Cancelled(t, retry) <==> id in t.pending && retry(id) != Succeeded && exists r :: r in t.market.book && r.id == id
  {
    WithoutAllMembers(t.market.book, Cancelled(t, retry));
    WithoutAllMembers(t.market.book, Gone(t, retry));
    hide WithoutAll;
  }

  /** Remembered after a visit: whose retry did not succeed though still listed, and whose cancel now did not succeed. */
  lemma RememberedExactly(t: Tended, x: Inputs, retry: nat -> Outcome, answer: nat -> Outcome, id: nat)
    requires !(x.bid == Unknown && x.offer == Unknown)
    ensures var ops := PlannedOps(Seen(t, retry), x);
            id in Attempted(t, x, retry, answer).pending <==>
              || (id in t.pending && retry(id) != Succeeded && exists r :: r in t.market.book && r.id == id)
              || exists i :: 0 <= i < |ops| && ops[i].CancelOp? && ops[i].orderId == id && answer(i) != Succeeded
  {
    hide PlannedOps, Seen, Exec, Effective, OfferPlaced, FinalPlan, NextAnchors, Places, ServerBook;
  }

  /** The ladder a visit records as placed: its offers if placing some offer succeeded, else the one recorded before. */
  lemma ShapeIsAsPlaced(t: Tended, x: Inputs, retry: nat -> Outcome, answer: nat -> Outcome)
    requires !(x.bid == Unknown && x.offer == Unknown)
    ensures var ops := PlannedOps(Seen(t, retry), x); var shaped := Attempted(t, x, retry, answer).market.lastShaped;
            if exists i :: 0 <= i < |ops| && ops[i].PlaceOp? && ops[i].side == Offer && answer(i) == Succeeded
            then shaped == Some(x.offerLevels) else shaped == t.market.lastShaped
  {
    hide PlannedOps, Seen, Exec, Effective, FailedCancels, FinalPlan, NextAnchors, Places, ServerBook;
  }

  // What failures leave, and how they are remembered

  lemma {:induction false} EffectiveMembers(ops: seq<GridOp>, answer: nat -> Outcome)
    ensures forall op :: op in Effective(ops, answer) ==> op in ops
  {
    if ops != [] {
      var n := |ops| - 1;
      EffectiveMembers(ops[..n], answer);
      assert ops == ops[..n] + [ops[n]];
    }
  }

  /** A cancel is carried out no more often than it is asked for, and remembered when it was asked for in vain. */
  lemma {:induction false} EffectiveCancels(ops: seq<GridOp>, answer: nat -> Outcome, id: nat)
    ensures CancelCount(Effective(ops, answer), id) <= CancelCount(ops, id)
    ensures CancelCount(ops, id) > CancelCount(Effective(ops, answer), id) ==> id in FailedCancels(ops, answer)
  {
    if ops != [] {
      var n := |ops| - 1;
      var before := ops[..n];
      EffectiveCancels(before, answer, id);
      assert ops == before + [ops[n]];
      CancelCountConcat(before, [ops[n]], id);
      CancelCountConcat(Effective(before, answer), [ops[n]], id);
      assert Effective(ops, answer) == if answer(n).Refused? then Effective(before, answer) else Effective(before, answer) + [ops[n]];
      CancelCountOfOne(ops[n], id);
      FailedCancelsGrow(ops, answer);
      hide CancelCount, FailedCancels, Effective;
    }
  }

  lemma CancelCountOfOne(op: GridOp, id: nat)
    ensures CancelCount([op], id) == if op.CancelOp? && op.orderId == id then 1 else 0
  {
  }

  lemma FailedCancelsGrow(ops: seq<GridOp>, answer: nat -> Outcome)
    requires ops != []
    ensures var n := |ops| - 1;
            && FailedCancels(ops[..n], answer) <= FailedCancels(ops, answer)
            && (ops[n].CancelOp? && !answer(n).Succeeded? ==> ops[n].orderId in FailedCancels(ops, answer))
  {
  }

  /** At a new rung and unfilled. */
  ghost predicate FreshAtRung(x: Inputs, o: Resting) {
    !o.partial && AtRung(x, o)
  }

  lemma RealIsSeen(t: Tended, retry: nat -> Outcome)
    requires Sound(t.market)
    ensures Sound(Seen(t, retry)) && Distinct(ServerBook(t, retry)) && Below(ServerBook(t, retry), t.market.next)
    ensures forall o :: o in ServerBook(t, retry) ==> o in Seen(t, retry).book && o in t.market.book
  {
    WithoutAllMembers(t.market.book, Cancelled(t, retry));
    WithoutAllMembers(t.market.book, Gone(t, retry));
    hide WithoutAll;
  }

  lemma NoEarlyCancel(m: Market, x: Inputs, answer: nat -> Outcome, id: nat)
    requires Sound(m) && id >= m.next
    ensures CancelCount(Effective(PlannedOps(m, x), answer), id) == 0
  {
    hide PlannedOps, Effective, CancelCount;
    NoFutureCancel(m, x, id);
    EffectiveCancels(PlannedOps(m, x), answer, id);
  }

  /** Whatever is left was there and survived, or has just been placed. */
  lemma LeftOrPlaced(t: Tended, x: Inputs, retry: nat -> Outcome, answer: nat -> Outcome, o: Resting)
    requires Sound(t.market) && !(x.bid == Unknown && x.offer == Unknown)
    requires o in Attempted(t, x, retry, answer).market.book
    ensures var seen := Seen(t, retry); var ops := PlannedOps(seen, x);
            || (o in seen.book && o in t.market.book && CancelCount(Effective(ops, answer), o.id) == 0)
            || (FinalPlan(seen, x).On(o.side).Replace? && FreshAtRung(x, o))
  {
    hide PlannedOps, Effective, CancelCount, Seen, ServerBook, FinalPlan, Exec, Sound, AtRung, RungPrice;
    var seen := Seen(t, retry);
    var ops := PlannedOps(seen, x);
    RealIsSeen(t, retry);
    SeenKeepsRest(t, retry);
    forall id | id >= seen.next ensures CancelCount(Effective(ops, answer), id) == 0 {
      NoEarlyCancel(seen, x, answer, id);
    }
    ExecMembers(Effective(ops, answer), ServerBook(t, retry), t.market.next);
    if PlacedBy(Effective(ops, answer), o.side, o.price) {
      EffectiveMembers(ops, answer);
      PlacedByPlan(seen, x, o);
    }
  }

  lemma PlacedByPlan(m: Market, x: Inputs, o: Resting)
    requires PlacedBy(PlannedOps(m, x), o.side, o.price)
    ensures FinalPlan(m, x).On(o.side).Replace? && AtRung(x, o)
  {
    PlacedAtRung(x, m.book, FinalPlan(m, x), o);
  }

  /**
   Whatever fails, after a visit every order left on a replaced side is a new rung or has its failed cancel
   remembered, every order left on a withdrawn side has its failed cancel remembered, and a kept side holds
   only what it held.
   */
  lemma FailuresAreRemembered(t: Tended, x: Inputs, retry: nat -> Outcome, answer: nat -> Outcome, o: Resting)
    requires Sound(t.market) && !(x.bid == Unknown && x.offer == Unknown)
    requires o in Attempted(t, x, retry, answer).market.book
    ensures var action := FinalPlan(Seen(t, retry), x).On(o.side); var t' := Attempted(t, x, retry, answer);
            && (action.Replace? ==> FreshAtRung(x, o) || o.id in t'.pending)
            && (action.Cancel? ==> o.id in t'.pending)
            && (action.Keep? ==> o in t.market.book)
  {
    hide PlannedOps, Effective, CancelCount, FinalPlan, Exec, Sound, FreshAtRung, FailedCancels;
    LeftOrPlaced(t, x, retry, answer, o);
    RealIsSeen(t, retry);
    hide Seen;
    var seen := Seen(t, retry);
    if o in seen.book {
      UnkeptCancelled(seen, x, o);
      EffectiveCancels(PlannedOps(seen, x), answer, o.id);
    }
  }

  lemma {:induction false} ExecKeepsDistinct(ops: seq<GridOp>, book: seq<Resting>, next: nat)
    requires Distinct(book) && Below(book, next)
    ensures Distinct(Exec(ops, book, next)) && Below(Exec(ops, book, next), next + |Places(ops)|)
    decreases |ops|
  {
    if ops != [] {
      match ops[0] {
        case CancelOp(id, _) =>
          WithoutMembers(book, id);
          ExecKeepsDistinct(ops[1..], Without(book, id), next);
        case PlaceOp(s, p, _) =>
          ExecKeepsDistinct(ops[1..], book + [Resting(next, s, p, false)], next + 1);
      }
    }
  }

  /** A visit leaves distinct ids below the next new one, whatever fails. */
  lemma AttemptKeepsSound(t: Tended, x: Inputs, retry: nat -> Outcome, answer: nat -> Outcome)
    requires Sound(t.market)
    ensures Sound(Attempted(t, x, retry, answer).market)
  {
    hide PlannedOps, Effective, ServerBook, FinalPlan, Exec, Places, Distinct, Below;
    RealIsSeen(t, retry);
    hide Seen;
    ExecKeepsDistinct(Effective(PlannedOps(Seen(t, retry), x), ALL_SUCCEED), ServerBook(t, retry), t.market.next);
    ExecKeepsDistinct(Effective(PlannedOps(Seen(t, retry), x), answer), ServerBook(t, retry), t.market.next);
  }

  // A visit on which everything succeeds

  lemma {:induction false} AllEffective(ops: seq<GridOp>)
    ensures Effective(ops, ALL_SUCCEED) == ops && FailedCancels(ops, ALL_SUCCEED) == {}
  {
    if ops != [] {
      var n := |ops| - 1;
      AllEffective(ops[..n]);
      assert ops == ops[..n] + [ops[n]];
    }
  }

  lemma OfferPlacedWhenReplaced(m: Market, x: Inputs)
    ensures OfferPlaced(PlannedOps(m, x), ALL_SUCCEED) <==> FinalPlan(m, x).offer.Replace?
  {
    var plan, ops := FinalPlan(m, x), PlannedOps(m, x);
    var rungs := PlacesExactlyTheRungs(x.bidLevels, x.offerLevels, x.price, x.tick, m.book, plan);
    PlanByFunding(m, x, Offer);
    hide PlannedOps, FinalPlan, SideRungs;
    if plan.offer.Replace? {
      var all := NewRungs(x.bidLevels, x.offerLevels, x.price, x.tick, plan);
      var last := |all| - 1;
      assert all[last].side.Offer?;
      var j := SameMultiset(all, rungs, last);
      assert AsPlaces(rungs)[j] in Places(ops);
      PlacesAsked(ops, AsPlaces(rungs)[j]);
    }
    if OfferPlaced(ops, ALL_SUCCEED) {
      var i :| 0 <= i < |ops| && ops[i].PlaceOp? && ops[i].side.Offer?;
      assert ops[i] in ops && PlacedBy(ops, Offer, ops[i].price);
      PlacedByPlan(m, x, Resting(0, Offer, ops[i].price, false));
    }
  }

  lemma {:induction false} PlacesAsked(ops: seq<GridOp>, op: GridOp)
    requires op in Places(ops)
    ensures op in ops && op.PlaceOp?
  {
    if ops != [] && !(ops[0].PlaceOp? && ops[0] == op) {
      PlacesAsked(ops[1..], op);
    }
  }

  /** With nothing failing, a visit that retried its failed cancels is a plain visit to what is left, and remembers nothing. */
  lemma SucceededVisit(t: Tended, x: Inputs)
    requires !(x.bid == Unknown && x.offer == Unknown)
    ensures Attempted(t, x, ALL_SUCCEED, ALL_SUCCEED) == Tended(Visited(Seen(t, ALL_SUCCEED), x), {})
  {
    hide PlannedOps, FinalPlan, Exec, Places, Effective, FailedCancels, OfferPlaced, NextAnchors, Listed, Cancelled, Seen, ServerBook;
    var seen := Seen(t, ALL_SUCCEED);
    AllEffective(PlannedOps(seen, x));
    OfferPlacedWhenReplaced(seen, x);
    AllRetried(t);
    SeenKeepsRest(t, ALL_SUCCEED);
  }

  lemma AllRetried(t: Tended)
    ensures Listed(t) - Cancelled(t, ALL_SUCCEED) == {} && ServerBook(t, ALL_SUCCEED) == Seen(t, ALL_SUCCEED).book
  {
    assert Gone(t, ALL_SUCCEED) == Cancelled(t, ALL_SUCCEED) == Listed(t);
    hide WithoutAll;
  }

  // Healing

  /** Each order of the side is a new rung or about to be cancelled again. */
  ghost predicate Remembered(t: Tended, x: Inputs, side: Side) {
    forall o :: o in t.market.book && o.side == side ==> FreshAtRung(x, o) || o.id in t.pending
  }

  ghost predicate Clean(t: Tended, x: Inputs, side: Side) {
    && SideCount(t.market.book, side) == |x.Levels(side)|
    && forall o :: o in t.market.book && o.side == side ==> FreshAtRung(x, o)
  }

  lemma SeenIsFresh(t: Tended, x: Inputs, side: Side)
    requires Remembered(t, x, side)
    ensures forall o :: o in Seen(t, ALL_SUCCEED).book && o.side == side ==> FreshAtRung(x, o)
  {
    WithoutAllMembers(t.market.book, Cancelled(t, ALL_SUCCEED));
    hide WithoutAll, FreshAtRung;
    forall o | o in t.market.book && o.id in t.pending ensures o.id in Cancelled(t, ALL_SUCCEED) {
    }
  }

  lemma VisitCleans(m: Market, x: Inputs, side: Side)
    requires Sound(m) && x.Fundable(side)
    requires forall o :: o in m.book && o.side == side ==> FreshAtRung(x, o)
    ensures Clean(Tended(Visited(m, x), {}), x, side)
  {
    PlanByFunding(m, x, side);
    SideAfter(m, x, side);
    assert FinalPlan(m, x).On(side).Keep? ==> SideCount(m.book, side) == |x.Levels(side)|;
    hide PlannedOps, FinalPlan, Exec, AtRung, SideCount, Sound;
    forall o | o in Visited(m, x).book && o.side == side ensures FreshAtRung(x, o) {
      FinalSides(m, x, o);
    }
  }

  /** A visit that replaces a side leaves on it only new rungs and orders about to be cancelled again. */
  lemma ReplacedIsRemembered(t: Tended, x: Inputs, retry: nat -> Outcome, answer: nat -> Outcome, side: Side)
    requires Sound(t.market) && FinalPlan(Seen(t, retry), x).On(side).Replace?
    ensures x.Fundable(side) && Remembered(Attempted(t, x, retry, answer), x, side)
  {
    var t' := Attempted(t, x, retry, answer);
    PlanByFunding(Seen(t, retry), x, side);
    hide PlannedOps, FinalPlan, Exec, FreshAtRung, Sound, Seen, Attempted;
    forall o | o in t'.market.book && o.side == side ensures FreshAtRung(x, o) || o.id in t'.pending {
      FailuresAreRemembered(t, x, retry, answer, o);
    }
  }

  /** One visit whose calls succeed mends such a side; with a positive threshold the visit after it has nothing to do. */
  lemma RememberedHeals(t: Tended, x: Inputs, side: Side)
    requires Sound(t.market) && Remembered(t, x, side) && x.Fundable(side)
    ensures var healed := Attempted(t, x, ALL_SUCCEED, ALL_SUCCEED);
            && Clean(healed, x, side) && healed.pending == {}
            && (x.threshold > 0.0 ==> PlanMarket(healed.market, x) == Plan(Keep, Keep))
  {
    hide PlannedOps, FinalPlan, Exec, FreshAtRung, Sound, Seen, Attempted, PlanMarket, Visited;
    RealIsSeen(t, ALL_SUCCEED);
    SeenIsFresh(t, x, side);
    SucceededVisit(t, x);
    VisitCleans(Seen(t, ALL_SUCCEED), x, side);
    VisitReachesFixpoint(Seen(t, ALL_SUCCEED), x);
  }

  // What forgetting would cost

  const STALE := Resting(0, Bid, 50.0, false)
  const STALE_MARKET := Market(Anchors(None, None), true, None, [STALE], 1)
  const BIDS_ONLY := Inputs(100.0, 1.0, 1.0, Funded, Unknown, [Level(-1.0, 1.0)], [])
  const ALL_REFUSED: nat -> Outcome := (i: nat) => Refused

  lemma {:induction false} NoneEffective(ops: seq<GridOp>)
    ensures Effective(ops, ALL_REFUSED) == []
  {
    if ops != [] {
      NoneEffective(ops[..|ops| - 1]);
    }
  }

  lemma StaleIsNoRung()
    ensures !AtRung(BIDS_ONLY, STALE)
  {
    assert Steps(100.0, -1.0, 1.0) == 99.0;
    assert 99.0.Floor == 99;
    assert RungPrice(Bid, 100.0, -1.0, 1.0) >= 98.0;
  }

  lemma StaleSides()
    ensures OnSide([STALE], Bid) == [STALE] && OnSide([STALE], Offer) == []
  {
    assert [STALE][1..] == [];
    assert OnSide([], Bid) == [] && OnSide([], Offer) == [];
  }

  lemma StalePlans(m: Market)
    requires m == STALE_MARKET || m == STALE_MARKET.(anchors := Anchors(Some(100.0), None), restore := false)
    ensures PlanMarket(m, BIDS_ONLY) == if m.restore then Plan(Replace, Keep) else Plan(Keep, Keep)
    ensures FinalPlan(m, BIDS_ONLY) == PlanMarket(m, BIDS_ONLY)
    ensures NextAnchors(m, FinalPlan(m, BIDS_ONLY), 100.0) == Anchors(Some(100.0), None)
  {
    StaleSides();
    assert Best(Offer, RestingPrices([STALE], Offer)) == None;
  }

  /**
   Only that memory does it: when a cancel and the place after it both fail, the count is on target and the
   anchor fresh, so visits that forget failed cancels keep the stale order, every call succeeding.
   */
  lemma ForgettingKeepsStaleOrders()
    ensures var failed := Attempted(Tended(STALE_MARKET, {}), BIDS_ONLY, ALL_REFUSED, ALL_REFUSED);
            var forgetful := Attempted(failed.(pending := {}), BIDS_ONLY, ALL_SUCCEED, ALL_SUCCEED);
            FinalPlan(STALE_MARKET, BIDS_ONLY).bid.Replace? && STALE in forgetful.market.book && !AtRung(BIDS_ONLY, STALE)
  {
    var t := Tended(STALE_MARKET, {});
    var failed := Attempted(t, BIDS_ONLY, ALL_REFUSED, ALL_REFUSED);
    StaleIsNoRung();
    StalePlans(STALE_MARKET);
    NothingRetried(STALE_MARKET, ALL_REFUSED);
    NoneEffective(PlannedOps(STALE_MARKET, BIDS_ONLY));
    assert failed.market == STALE_MARKET.(anchors := Anchors(Some(100.0), None), restore := false);
    NothingRetried(failed.market, ALL_SUCCEED);
    StalePlans(failed.market);
    SucceededVisit(failed.(pending := {}), BIDS_ONLY);
    KeepBothDoesNothing(failed.market, BIDS_ONLY);
  }

  lemma NothingRetried(m: Market, retry: nat -> Outcome)
    ensures var t := Tended(m, {}); Seen(t, retry) == m && ServerBook(t, retry) == m.book && Listed(t) == {}
  {
    WithoutNone(m.book);
    assert Cancelled(Tended(m, {}), retry) == {} && Gone(Tended(m, {}), retry) == {};
  }
}
