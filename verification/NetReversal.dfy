/**
 Reversal: books on which a quote was confirmed and later released, beside the books on which it never was, with
 any other operations in between on both.
 */
module NetReversal {
  import opened Wrappers
  import opened Decay
  import opened NetPosition
  import opened NetLedger

  lemma PowStrictly(r: real, d: nat, rest: nat, value: real)
    requires 0.0 < r < 1.0 && d > 0 && value != 0.0
    ensures value * Pow(r, d + rest) != value * Pow(r, rest)
  {
    PowBounds(r, rest);
    PowBelowOne(r, d);
    PowAdds(r, d, rest);
    StrictProduct(value, Pow(r, rest), Pow(r, d));
  }

  lemma FadesStrictly(p: Params, value: real, from: nat, later: nat, t: nat)
    requires 0.0 < p.rate < 1.0 && value != 0.0 && from < later <= t
    ensures Faded(p, value, from, t) != Faded(p, value, later, t)
  {
    PowStrictly(p.rate, later - from, t - later, value);
    assert Elapsed(from, t) == (later - from) + (t - later);
  }

  lemma StrictProduct(value: real, a: real, b: real)
    requires value != 0.0 && a > 0.0 && b < 1.0
    ensures value * (b * a) != value * a
  {
    assert value * a != 0.0;
    assert value * a * (1.0 - b) != 0.0;
    assert value * a * (1.0 - b) == value * a - value * (b * a);
  }

  // The same operations on books with and without the quote

  ghost function Operated(p: Params, b: Books, e: Event, now: nat): Books {
    match e
    case Confirm(q, party, token, delta, at) => Confirmed(p, b, q, Item(party, token, delta, at), now)
    case Settle(q) => Settled(b, q)
    case Release(q) => Released(p, b, q, now)
    case Expire(order, clock) => ReleasedAll(p, b, order, clock)
    case Sweep => Swept(p, b, now)
  }

  ghost function OperatedAll(p: Params, b: Books, history: seq<Timed>): Books {
    if history == [] then b
    else
      var n := |history| - 1;
      Operated(p, OperatedAll(p, b, history[..n]), history[n].event, history[n].now)
  }

  /** The operation does not concern `quote`. */
  predicate Spares(e: Event, quote: string) {
    match e
    case Confirm(q, _, _, _, _) => q != quote
    case Settle(q) => q != quote
    case Release(q) => q != quote
    case Expire(order, _) => quote !in order
    case Sweep => true
  }

  /** Clock readings in order from `from` on, and no operation concerns `quote`. */
  predicate Between(history: seq<Timed>, from: nat, quote: string) {
    history == [] ||
    var n := |history| - 1;
    && Between(history[..n], from, quote) && Spares(history[n].event, quote)
    && ClockOk(history[n].event, LastFrom(history[..n], from), history[n].now)
  }

  function LastFrom(history: seq<Timed>, from: nat): nat {
    if history == [] then from else history[|history| - 1].now
  }

  ghost predicate Stamped(b: Books, now: nat) {
    forall k :: StampedBy(Aggregate(b, k), now)
  }

  ghost function ReadOf(p: Params, b: Books, k: Key, t: nat): real {
    Read(p, Aggregate(b, k), t)
  }

  /** Books `a` are books `b` with `quote` confirmed as well: pending, and its delta in every later read it hits. */
  ghost predicate Twin(p: Params, a: Books, b: Books, quote: string, item: Item, applied: nat, now: nat) {
    && quote !in b.pending && a.pending == b.pending[quote := item]
    && Stamped(a, now) && Stamped(b, now)
    && forall k, t: nat :: t >= now ==> ReadOf(p, a, k, t) == ReadOf(p, b, k, t) + Term(p, item.(at := applied), k, t)
  }

  ghost predicate Exact(p: Params) {
    Sane(p) && p.epsilon == 0.0
  }

  lemma AddsExactly(p: Params, b: Books, party: Option<string>, token: string, add: real, now: nat, k: Key, t: nat)
    requires Exact(p) && StampedBy(Aggregate(b, k), now) && now <= t
    ensures StampedBy(Aggregate(Added(p, b, party, token, add, now), k), now)
    ensures ReadOf(p, Added(p, b, party, token, add, now), k, t)
            == ReadOf(p, b, k, t) + if Hits(party, token, k) then Faded(p, add, now, t) else 0.0
  {
    NetAdds(p, b, party, token, add, now, k, t);
    hide Added, Read, Faded;
  }

  /** The same addition on twins leaves twins, whatever else the pending maps then hold. */
  lemma TwinAdds(p: Params, a: Books, b: Books, quote: string, item: Item, applied: nat, now: nat,
                 a': Books, b': Books, party: Option<string>, token: string, add: real)
    requires Exact(p) && Twin(p, a, b, quote, item, applied, now)
    requires a'.nets == a.nets && a'.desk == a.desk && b'.nets == b.nets && b'.desk == b.desk
    requires quote !in b'.pending && a'.pending == b'.pending[quote := item]
    ensures Twin(p, Added(p, a', party, token, add, now), Added(p, b', party, token, add, now), quote, item, applied, now)
  {
    var after, after' := Added(p, a', party, token, add, now), Added(p, b', party, token, add, now);
    assert forall k :: Aggregate(a', k) == Aggregate(a, k) && Aggregate(b', k) == Aggregate(b, k);
    assert after.pending == a'.pending && after'.pending == b'.pending;
    hide Added, Term, Read;
    forall k, t: nat | t >= now
      ensures StampedBy(Aggregate(after, k), now) && StampedBy(Aggregate(after', k), now)
      ensures ReadOf(p, after, k, t) == ReadOf(p, after', k, t) + Term(p, item.(at := applied), k, t)
    {
      AddsExactly(p, a', party, token, add, now, k, t);
      AddsExactly(p, b', party, token, add, now, k, t);
    }
    forall k ensures StampedBy(Aggregate(after, k), now) && StampedBy(Aggregate(after', k), now) {
      AddsExactly(p, a', party, token, add, now, k, now);
      AddsExactly(p, b', party, token, add, now, k, now);
    }
  }

  lemma TwinLater(p: Params, a: Books, b: Books, quote: string, item: Item, applied: nat, now: nat, later: nat)
    requires Twin(p, a, b, quote, item, applied, now) && now <= later
    ensures Twin(p, a, b, quote, item, applied, later)
  {
    forall k ensures StampedBy(Aggregate(a, k), later) && StampedBy(Aggregate(b, k), later) {
      assert StampedBy(Aggregate(a, k), now) && StampedBy(Aggregate(b, k), now);
    }
    hide ReadOf, Term;
  }

  lemma TwinConfirms(p: Params, a: Books, b: Books, quote: string, item: Item, applied: nat, now: nat, q: string, other: Item)
    requires Exact(p) && Twin(p, a, b, quote, item, applied, now) && q != quote
    ensures Twin(p, Confirmed(p, a, q, other, now), Confirmed(p, b, q, other, now), quote, item, applied, now)
  {
    if Countable(b, q, other.token, other.delta) {
      var a', b' := a.(pending := a.pending[q := other]), b.(pending := b.pending[q := other]);
      assert a'.pending == b'.pending[quote := item];
      TwinAdds(p, a, b, quote, item, applied, now, a', b', other.party, other.token, other.delta);
    }
    hide Added, Twin;
  }

  lemma TwinSettles(p: Params, a: Books, b: Books, quote: string, item: Item, applied: nat, now: nat, q: string)
    requires Twin(p, a, b, quote, item, applied, now) && q != quote
    ensures Twin(p, Settled(a, q), Settled(b, q), quote, item, applied, now)
  {
    var a', b' := Settled(a, q), Settled(b, q);
    assert a'.pending == b'.pending[quote := item];
    assert forall k :: Aggregate(a', k) == Aggregate(a, k) && Aggregate(b', k) == Aggregate(b, k);
    hide Term, Read, Aggregate;
    assert forall k, t :: ReadOf(p, a', k, t) == ReadOf(p, a, k, t) && ReadOf(p, b', k, t) == ReadOf(p, b, k, t);
  }

  lemma TwinReleases(p: Params, a: Books, b: Books, quote: string, item: Item, applied: nat, now: nat, q: string)
    requires Exact(p) && Twin(p, a, b, quote, item, applied, now) && q != quote
    ensures Twin(p, Released(p, a, q, now), Released(p, b, q, now), quote, item, applied, now)
  {
    if q in b.pending {
      var other := b.pending[q];
      var a', b' := Settled(a, q), Settled(b, q);
      assert a'.pending == b'.pending[quote := item];
      TwinAdds(p, a, b, quote, item, applied, now, a', b', other.party, other.token, -Faded(p, other.delta, other.at, now));
    }
    hide Added, Twin, Faded;
  }

  lemma {:induction false} TwinExpires(p: Params, a: Books, b: Books, quote: string, item: Item, applied: nat, from: nat, to: nat,
                                       order: seq<string>, clock: nat -> nat)
    requires Exact(p) && Twin(p, a, b, quote, item, applied, from) && quote !in order && Reads(clock, |order|, from, to)
    ensures Twin(p, ReleasedAll(p, a, order, clock), ReleasedAll(p, b, order, clock), quote, item, applied,
                 if order == [] then from else clock(|order| - 1))
  {
    if order != [] {
      hide Twin, Released;
      var n := |order| - 1;
      TwinExpires(p, a, b, quote, item, applied, from, to, order[..n], clock);
      var a', b' := ReleasedAll(p, a, order[..n], clock), ReleasedAll(p, b, order[..n], clock);
      TwinLater(p, a', b', quote, item, applied, if n == 0 then from else clock(n - 1), clock(n));
      TwinReleases(p, a', b', quote, item, applied, clock(n), order[n]);
    }
  }

  lemma SweepReadsSame(p: Params, b: Books, now: nat, k: Key, t: nat)
    requires Exact(p) && StampedBy(Aggregate(b, k), now) && now <= t
    ensures ReadOf(p, Swept(p, b, now), k, t) == ReadOf(p, b, k, t) && StampedBy(Aggregate(Swept(p, b, now), k), now)
  {
    SweptAggregate(p, b, now, k);
    var e := Aggregate(b, k);
    if e.Some? && Abs(Faded(p, e.value.value, e.value.at, now)) <= p.epsilon {
      SweptReads(p, e, now, t);
    }
    hide Swept, Faded;
  }

  lemma TwinSweeps(p: Params, a: Books, b: Books, quote: string, item: Item, applied: nat, now: nat)
    requires Exact(p) && Twin(p, a, b, quote, item, applied, now)
    ensures Twin(p, Swept(p, a, now), Swept(p, b, now), quote, item, applied, now)
  {
    var a', b' := Swept(p, a, now), Swept(p, b, now);
    assert a'.pending == a.pending && b'.pending == b.pending;
    hide Swept, Term, ReadOf, StampedBy;
    forall k, t: nat | t >= now
      ensures ReadOf(p, a', k, t) == ReadOf(p, b', k, t) + Term(p, item.(at := applied), k, t)
    {
      SweepReadsSame(p, a, now, k, t);
      SweepReadsSame(p, b, now, k, t);
    }
    forall k ensures StampedBy(Aggregate(a', k), now) && StampedBy(Aggregate(b', k), now) {
      SweepReadsSame(p, a, now, k, now);
      SweepReadsSame(p, b, now, k, now);
    }
  }

  lemma {:induction false} TwinsStay(p: Params, a: Books, b: Books, quote: string, item: Item, applied: nat, between: seq<Timed>)
    requires Exact(p) && Twin(p, a, b, quote, item, applied, applied) && Between(between, applied, quote)
    ensures Twin(p, OperatedAll(p, a, between), OperatedAll(p, b, between), quote, item, applied, LastFrom(between, applied))
  {
    if between != [] {
      hide Twin, Confirmed, Settled, Released, ReleasedAll, Swept, Exact;
      var n := |between| - 1;
      TwinsStay(p, a, b, quote, item, applied, between[..n]);
      var a', b' := OperatedAll(p, a, between[..n]), OperatedAll(p, b, between[..n]);
      var from, now := LastFrom(between[..n], applied), between[n].now;
      TwinLater(p, a', b', quote, item, applied, from, now);
      match between[n].event {
        case Confirm(q, party, token, delta, at) => TwinConfirms(p, a', b', quote, item, applied, now, q, Item(party, token, delta, at));
        case Settle(q) => TwinSettles(p, a', b', quote, item, applied, now, q);
        case Release(q) => TwinReleases(p, a', b', quote, item, applied, now, q);
        case Expire(order, clock) =>
          TwinExpires(p, a', b', quote, item, applied, from, now, order, clock);
          TwinLater(p, ReleasedAll(p, a', order, clock), ReleasedAll(p, b', order, clock), quote, item, applied,
                    if order == [] then from else clock(|order| - 1), now);
        case Sweep => TwinSweeps(p, a', b', quote, item, applied, now);
      }
    }
  }

  lemma ConfirmMakesTwin(p: Params, b: Books, quote: string, item: Item, applied: nat)
    requires Exact(p) && Stamped(b, applied) && Countable(b, quote, item.token, item.delta)
    ensures Twin(p, Confirmed(p, b, quote, item, applied), b, quote, item, applied, applied)
  {
    var entered := b.(pending := b.pending[quote := item]);
    var a := Confirmed(p, b, quote, item, applied);
    assert a == Added(p, entered, item.party, item.token, item.delta, applied) && a.pending == b.pending[quote := item];
    assert forall k :: Aggregate(entered, k) == Aggregate(b, k);
    hide Added, Confirmed, Read;
    forall k, t: nat | t >= applied ensures ReadOf(p, a, k, t) == ReadOf(p, b, k, t) + Term(p, item.(at := applied), k, t) {
      AddsExactly(p, entered, item.party, item.token, item.delta, applied, k, t);
    }
    forall k ensures StampedBy(Aggregate(a, k), applied) {
      AddsExactly(p, entered, item.party, item.token, item.delta, applied, k, applied);
    }
  }

  lemma TwinReleased(p: Params, a: Books, b: Books, quote: string, item: Item, applied: nat, now: nat, k: Key, t: nat)
    requires Exact(p) && Twin(p, a, b, quote, item, applied, now) && item.at <= now <= t
    ensures ReadOf(p, Released(p, a, quote, now), k, t)
            == ReadOf(p, b, k, t) + Term(p, item.(at := applied), k, t) - Term(p, item, k, t)
  {
    var dropped := Settled(a, quote);
    var reversal := -Faded(p, item.delta, item.at, now);
    assert Aggregate(dropped, k) == Aggregate(a, k);
    assert StampedBy(Aggregate(a, k), now);
    assert ReadOf(p, dropped, k, t) == ReadOf(p, a, k, t);
    AddsExactly(p, dropped, item.party, item.token, reversal, now, k, t);
    ReversalFades(p, item, now, t);
    hide Added, Read, Faded;
  }

  /**
   With no epsilon, a confirm and its release leave every aggregate reading as on books where the quote was never
   confirmed, whatever happens to other quotes in between, exactly when the aggregate does not concern the quote or
   its pending entry and the aggregate were stamped by one and the same clock reading.
   */
  lemma ReleaseExactForOneClockReading(p: Params, b: Books, quote: string, item: Item, applied: nat,
                                       between: seq<Timed>, released: nat, k: Key, t: nat)
    requires Exact(p) && p.rate < 1.0
    requires Stamped(b, applied) && Countable(b, quote, item.token, item.delta) && item.at <= applied
    requires Between(between, applied, quote) && LastFrom(between, applied) <= released <= t
    ensures var with := Released(p, OperatedAll(p, Confirmed(p, b, quote, item, applied), between), quote, released);
            var without := OperatedAll(p, b, between);
            ReadOf(p, with, k, t) == ReadOf(p, without, k, t) <==> !Hits(item.party, item.token, k) || item.at == applied
  {
    BetweenAdvances(between, applied, quote);
    ConfirmMakesTwin(p, b, quote, item, applied);
    var a := Confirmed(p, b, quote, item, applied);
    TwinsStay(p, a, b, quote, item, applied, between);
    hide Twin, Confirmed, OperatedAll, ReadOf, Released, Exact, Between;
    assert 0.0 < p.rate by { SaneRate(p); }
    TwinLater(p, OperatedAll(p, a, between), OperatedAll(p, b, between), quote, item, applied, LastFrom(between, applied), released);
    TwinReleased(p, OperatedAll(p, a, between), OperatedAll(p, b, between), quote, item, applied, released, k, t);
    if item.at < applied {
      FadesStrictly(p, item.delta, item.at, applied, t);
    }
    hide Faded;
  }

  lemma SaneRate(p: Params)
    requires Exact(p)
    ensures p.rate > 0.0
  {
  }

  lemma {:induction false} BetweenAdvances(between: seq<Timed>, from: nat, quote: string)
    requires Between(between, from, quote)
    ensures from <= LastFrom(between, from)
  {
    if between != [] {
      BetweenAdvances(between[..|between| - 1], from, quote);
    }
  }
}
