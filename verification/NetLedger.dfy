/**
 The lazily decayed aggregates against a plain ledger: every counted and not reversed quote, each decayed
 from the reading that applied it. Over any run the two differ by at most epsilon per eviction and the lag of
 each release, so not at all without either.
 */
module NetLedger {
  import opened Wrappers
  import opened MapSums
  import opened Decay
  import opened NetPosition

  predicate Hits(party: Option<string>, token: string, k: Key) {
    match k
    case Party(p, t) => party == Some(p) && token == t
    case Desk(t) => token == t
  }

  ghost function Term(p: Params, item: Item, k: Key, t: nat): real {
    if Hits(item.party, item.token, k) then Faded(p, item.delta, item.at, t) else 0.0
  }

  ghost function SettledSum(p: Params, log: seq<Item>, k: Key, t: nat): real {
    if log == [] then 0.0 else SettledSum(p, log[..|log| - 1], k, t) + Term(p, log[|log| - 1], k, t)
  }

  ghost function PendingTerms(p: Params, pending: map<string, Item>, k: Key, t: nat): map<string, real> {
    map q | q in pending :: Term(p, pending[q], k, t)
  }

  /**
   A run: the books; every pending quote as it was counted, stamped with the reading that applied it; the
   quotes whose fills were observed; how often each aggregate was evicted; and how far releases may have
   missed it because entry and aggregate carried two clock readings.
   */
  datatype Run = Run(
    books: Books, counted: map<string, Item>, now: nat, settled: seq<Item>, evictions: Key -> nat, drift: Key -> real)

  const START := Run(EMPTY, map[], 0, [], (k: Key) => 0, (k: Key) => 0.0)

  ghost function Ledger(p: Params, r: Run, k: Key, t: nat): real {
    SettledSum(p, r.settled, k, t) + Sum(PendingTerms(p, r.counted, k, t))
  }

  ghost function NetOf(p: Params, r: Run, k: Key, t: nat): real {
    Read(p, Aggregate(r.books, k), t)
  }

  // Steps of a run; `now` is the last clock reading of an operation

  datatype Event =
    | Confirm(quote: string, party: Option<string>, token: string, delta: real, at: nat)
    | Settle(quote: string)
    | Release(quote: string)
    | Expire(order: seq<string>, clock: nat -> nat)
    | Sweep

  /** Evictions after the aggregates an addition hits were rewritten as `books`. */
  ghost function EvictedBy(before: Key -> nat, party: Option<string>, token: string, books: Books): Key -> nat {
    k => before(k) + if Hits(party, token, k) && Aggregate(books, k).None? then 1 else 0
  }

  /** The books take what the operation does; the ledger counts a quote with a delta and a token that is not counted yet. */
  ghost function AfterConfirm(p: Params, r: Run, quote: string, item: Item, applied: nat): Run {
    var books := Confirmed(p, r.books, quote, item, applied);
    if item.delta == 0.0 || item.token == "" || quote in r.counted then r.(books := books)
    else
      r.(books := books, counted := r.counted[quote := item.(at := applied)],
         evictions := EvictedBy(r.evictions, item.party, item.token, books))
  }

  ghost function AfterSettle(r: Run, quote: string): Run {
    var books := Settled(r.books, quote);
    if quote !in r.counted then r.(books := books)
    else r.(books := books, counted := r.counted - {quote}, settled := r.settled + [r.counted[quote]])
  }

  /** How far apart a delta stamped `at` and the same delta stamped `applied` can ever read. */
  ghost function Lag(p: Params, delta: real, at: nat, applied: nat): real {
    Abs(delta) * (1.0 - Pow(p.rate, Elapsed(at, applied)))
  }

  ghost function DriftedBy(p: Params, before: Key -> real, item: Item, applied: nat): Key -> real {
    k => before(k) + if Hits(item.party, item.token, k) then Lag(p, item.delta, item.at, applied) else 0.0
  }

  ghost function AfterRelease(p: Params, r: Run, quote: string, now: nat): Run {
    var books := Released(p, r.books, quote, now);
    if quote !in r.counted then r.(books := books)
    else
      var item := r.counted[quote];
      var at := if quote in r.books.pending then r.books.pending[quote].at else item.at;
      r.(books := books, counted := r.counted - {quote},
         evictions := EvictedBy(r.evictions, item.party, item.token, books),
         drift := DriftedBy(p, r.drift, item.(at := at), item.at))
  }

  ghost function AfterExpire(p: Params, r: Run, order: seq<string>, clock: nat -> nat): Run {
    if order == [] then r
    else
      var n := |order| - 1;
      AfterRelease(p, AfterExpire(p, r, order[..n], clock), order[n], clock(n))
  }

  ghost function AfterSweep(p: Params, r: Run, now: nat): Run {
    var books := Swept(p, r.books, now);
    r.(books := books,
       evictions := k => r.evictions(k) + if Aggregate(r.books, k).Some? && Aggregate(books, k).None? then 1 else 0)
  }

  ghost function Next(p: Params, r: Run, e: Event, now: nat): Run {
    var r' := match e
      case Confirm(q, party, token, delta, at) => AfterConfirm(p, r, q, Item(party, token, delta, at), now)
      case Settle(q) => AfterSettle(r, q)
      case Release(q) => AfterRelease(p, r, q, now)
      case Expire(order, clock) => AfterExpire(p, r, order, clock)
      case Sweep => AfterSweep(p, r, now);
    r'.(now := now)
  }

  datatype Timed = Timed(event: Event, now: nat)

  ghost function After(p: Params, history: seq<Timed>): Run {
    if history == [] then START
    else Next(p, After(p, history[..|history| - 1]), history[|history| - 1].event, history[|history| - 1].now)
  }

  predicate Reads(clock: nat -> nat, n: nat, from: nat, to: nat) {
    (forall i: nat :: i < n ==> from <= clock(i) <= to) && forall i: nat, j: nat :: i < j < n ==> clock(i) <= clock(j)
  }

  /** Readings under the lock are in order; a confirm reads the clock once before it has the lock, maybe long before. */
  predicate ClockOk(e: Event, from: nat, to: nat) {
    && from <= to
    && (e.Confirm? ==> e.at <= to)
    && (e.Expire? ==> Reads(e.clock, |e.order|, from, to))
  }

  function LastReading(history: seq<Timed>): nat {
    if history == [] then 0 else history[|history| - 1].now
  }

  predicate Monotone(history: seq<Timed>) {
    history == [] ||
    var n := |history| - 1;
    Monotone(history[..n]) && ClockOk(history[n].event, LastReading(history[..n]), history[n].now)
  }

  // Fading composes

  lemma FadesOn(p: Params, value: real, from: nat, mid: nat, to: nat)
    requires Sane(p) && from <= mid <= to
    ensures Faded(p, Faded(p, value, from, mid), mid, to) == Faded(p, value, from, to)
  {
    PowAdds(p.rate, mid - from, to - mid);
    Associates(value, Pow(p.rate, mid - from), Pow(p.rate, to - mid));
  }

  lemma Associates(a: real, b: real, c: real)
    ensures a * b * c == a * (b * c)
  {
  }

  lemma FadesLinearly(p: Params, a: real, b: real, from: nat, to: nat)
    ensures Faded(p, a + b, from, to) == Faded(p, a, from, to) + Faded(p, b, from, to)
    ensures Faded(p, -a, from, to) == -Faded(p, a, from, to)
    ensures Faded(p, 0.0, from, to) == 0.0
  {
  }

  lemma FadesTowardsZero(p: Params, value: real, from: nat, to: nat)
    requires Sane(p)
    ensures Abs(Faded(p, value, from, to)) <= Abs(value)
  {
    PowBounds(p.rate, Elapsed(from, to));
    ScaledDown(value, Pow(p.rate, Elapsed(from, to)));
  }

  lemma ScaledDown(a: real, f: real)
    requires 0.0 < f <= 1.0
    ensures Abs(a * f) <= Abs(a)
  {
    if a >= 0.0 {
      Scales(a, f);
    } else {
      Scales(-a, f);
      assert -a * f == -(a * f);
    }
  }

  lemma Scales(a: real, f: real)
    requires a >= 0.0 && 0.0 < f <= 1.0
    ensures 0.0 <= a * f <= a
  {
    assert a * (1.0 - f) >= 0.0;
  }

  // One aggregate

  predicate StampedBy(entry: Option<DecayedNet>, now: nat) {
    entry.Some? ==> entry.value.at <= now
  }

  /** Rewriting an aggregate adds exactly the faded amount to every later read, up to epsilon when it is evicted. */
  lemma RebasedReads(p: Params, entry: Option<DecayedNet>, add: real, now: nat, t: nat)
    requires Sane(p) && StampedBy(entry, now) && now <= t
    ensures var after := Rebased(p, entry, add, now);
            && StampedBy(after, now)
            && Abs(Read(p, after, t) - (Read(p, entry, t) + Faded(p, add, now, t))) <= if after.None? then p.epsilon else 0.0
  {
    var value := Read(p, entry, now) + add;
    FadesLinearly(p, Read(p, entry, now), add, now, t);
    if entry.Some? {
      FadesOn(p, entry.value.value, entry.value.at, now, t);
    }
    assert Faded(p, value, now, t) == Read(p, entry, t) + Faded(p, add, now, t);
    FadesTowardsZero(p, value, now, t);
  }

  lemma SweptReads(p: Params, entry: Option<DecayedNet>, now: nat, t: nat)
    requires Sane(p) && StampedBy(entry, now) && now <= t
    requires entry.Some? && Abs(Faded(p, entry.value.value, entry.value.at, now)) <= p.epsilon
    ensures Abs(Read(p, entry, t)) <= p.epsilon
  {
    FadesOn(p, entry.value.value, entry.value.at, now, t);
    FadesTowardsZero(p, Faded(p, entry.value.value, entry.value.at, now), now, t);
  }

  // The invariant

  /** The error `n` evictions may leave. */
  ghost function Slack(p: Params, n: nat): real {
    if n == 0 then 0.0 else p.epsilon + Slack(p, n - 1)
  }

  lemma {:induction false} SlackIs(p: Params, n: nat)
    ensures Slack(p, n) == p.epsilon * n as real
  {
    if n > 0 {
      SlackIs(p, n - 1);
    }
  }

  ghost predicate Tracks(p: Params, r: Run, k: Key, t: nat) {
    Abs(NetOf(p, r, k, t) - Ledger(p, r, k, t)) <= Slack(p, r.evictions(k)) + r.drift(k)
  }

  /** Each pending quote is counted with its own delta, at or after its own stamp. */
  ghost predicate CountedOk(r: Run, now: nat) {
    && r.counted.Keys == r.books.pending.Keys
    && forall q :: q in r.counted ==>
         && r.counted[q] == r.books.pending[q].(at := r.counted[q].at)
         && r.books.pending[q].at <= r.counted[q].at <= now
  }

  ghost predicate StampedOk(r: Run, now: nat) {
    CountedOk(r, now) && forall k :: StampedBy(Aggregate(r.books, k), now)
  }

  ghost predicate Agrees(p: Params, r: Run, now: nat) {
    StampedOk(r, now) && forall k, t :: t >= now ==> Tracks(p, r, k, t)
  }

  lemma AddedAggregate(p: Params, b: Books, party: Option<string>, token: string, add: real, now: nat, k: Key)
    ensures Aggregate(Added(p, b, party, token, add, now), k) ==
              if Hits(party, token, k) then Rebased(p, Aggregate(b, k), add, now) else Aggregate(b, k)
  {
  }

  /** Net and ledger moved by the same amount, up to one eviction and the lag of one release. */
  lemma StepTracks(p: Params, n: nat, drift: real, evicted: bool, lag: real,
                   net: real, ledger: real, net': real, ledger': real, change: real)
    requires Abs(net - ledger) <= Slack(p, n) + drift
    requires Abs(net' - (net + change)) <= if evicted then p.epsilon else 0.0
    requires Abs(ledger' - (ledger + change)) <= lag
    ensures Abs(net' - ledger') <= Slack(p, n + if evicted then 1 else 0) + (drift + lag)
  {
  }

  lemma StampsDiffer(p: Params, delta: real, at: nat, applied: nat, t: nat)
    requires Sane(p) && at <= applied <= t
    ensures Faded(p, delta, applied, t) - Faded(p, delta, at, t) == Faded(p, delta - Faded(p, delta, at, applied), applied, t)
  {
    var faded := Faded(p, delta, at, applied);
    FadesOn(p, delta, at, applied, t);
    FadesLinearly(p, delta, -faded, applied, t);
    FadesLinearly(p, faded, 0.0, applied, t);
  }

  /** A delta reads differently under two stamps by at most the lag between them. */
  lemma LagBounds(p: Params, delta: real, at: nat, applied: nat, t: nat)
    requires Sane(p) && at <= applied <= t
    ensures Abs(Faded(p, delta, applied, t) - Faded(p, delta, at, t)) <= Lag(p, delta, at, applied)
  {
    StampsDiffer(p, delta, at, applied, t);
    FadesTowardsZero(p, delta - Faded(p, delta, at, applied), applied, t);
    LagIs(p, delta, at, applied);
    hide Faded, Lag;
  }

  lemma LagIs(p: Params, delta: real, at: nat, applied: nat)
    requires Sane(p)
    ensures Abs(delta - Faded(p, delta, at, applied)) == Lag(p, delta, at, applied) >= 0.0
  {
    PowBounds(p.rate, Elapsed(at, applied));
    hide Pow;
    LeftOver(delta, Pow(p.rate, Elapsed(at, applied)));
  }

  lemma LeftOver(a: real, f: real)
    requires 0.0 < f <= 1.0
    ensures Abs(a - a * f) == Abs(a) * (1.0 - f) >= 0.0
  {
    var size := if a >= 0.0 then a else -a;
    Scales(size, f);
    assert size * (1.0 - f) == size - size * f;
    if a < 0.0 {
      assert size * f == -(a * f);
    }
  }

  lemma TermsDiffer(p: Params, item: Item, applied: nat, k: Key, t: nat)
    requires Sane(p) && item.at <= applied <= t
    ensures Abs(Term(p, item, k, t) - Term(p, item.(at := applied), k, t))
            <= if Hits(item.party, item.token, k) then Lag(p, item.delta, item.at, applied) else 0.0
  {
    LagBounds(p, item.delta, item.at, applied, t);
    hide Faded, Lag;
  }

  /** An addition to a key's aggregate, seen from any later read. */
  lemma NetAdds(p: Params, b: Books, party: Option<string>, token: string, add: real, now: nat, k: Key, t: nat)
    requires Sane(p) && StampedBy(Aggregate(b, k), now) && now <= t
    ensures var after := Aggregate(Added(p, b, party, token, add, now), k); var hit := Hits(party, token, k);
            && StampedBy(after, now)
            && Abs(Read(p, after, t) - (Read(p, Aggregate(b, k), t) + if hit then Faded(p, add, now, t) else 0.0))
               <= if hit && after.None? then p.epsilon else 0.0
  {
    AddedAggregate(p, b, party, token, add, now, k);
    if Hits(party, token, k) {
      RebasedReads(p, Aggregate(b, k), add, now, t);
    }
  }

  lemma PendingInserts(p: Params, pending: map<string, Item>, quote: string, item: Item, k: Key, t: nat)
    requires quote !in pending
    ensures Sum(PendingTerms(p, pending[quote := item], k, t)) == Sum(PendingTerms(p, pending, k, t)) + Term(p, item, k, t)
  {
    var terms := PendingTerms(p, pending, k, t);
    assert PendingTerms(p, pending[quote := item], k, t) == terms[quote := Term(p, item, k, t)];
    SumInsert(terms, quote, Term(p, item, k, t));
  }

  lemma PendingRemoves(p: Params, pending: map<string, Item>, quote: string, k: Key, t: nat)
    requires quote in pending
    ensures Sum(PendingTerms(p, pending - {quote}, k, t)) == Sum(PendingTerms(p, pending, k, t)) - Term(p, pending[quote], k, t)
  {
    var terms := PendingTerms(p, pending, k, t);
    assert PendingTerms(p, pending - {quote}, k, t) == terms - {quote};
    SumRemove(terms, quote);
  }

  /** A confirm adds the delta as applied to every later read. */
  lemma ConfirmMovesNet(p: Params, r: Run, quote: string, item: Item, applied: nat, k: Key, t: nat)
    requires Sane(p) && StampedBy(Aggregate(r.books, k), applied) && applied <= t
    requires Countable(r.books, quote, item.token, item.delta)
    ensures var r' := AfterConfirm(p, r, quote, item, applied);
            && StampedBy(Aggregate(r'.books, k), applied)
            && Abs(NetOf(p, r', k, t) - (NetOf(p, r, k, t) + Term(p, item.(at := applied), k, t)))
               <= if Hits(item.party, item.token, k) && Aggregate(r'.books, k).None? then p.epsilon else 0.0
  {
    var entered := r.books.(pending := r.books.pending[quote := item]);
    assert AfterConfirm(p, r, quote, item, applied).books == Added(p, entered, item.party, item.token, item.delta, applied);
    assert Aggregate(entered, k) == Aggregate(r.books, k);
    NetAdds(p, entered, item.party, item.token, item.delta, applied, k, t);
  }

  lemma ConfirmMarks(p: Params, r: Run, quote: string, item: Item, applied: nat, k: Key, t: nat)
    requires Countable(r.books, quote, item.token, item.delta) && quote !in r.counted
    ensures var r' := AfterConfirm(p, r, quote, item, applied); var hit := Hits(item.party, item.token, k);
            && r'.evictions(k) == r.evictions(k) + (if hit && Aggregate(r'.books, k).None? then 1 else 0)
            && r'.drift(k) == r.drift(k)
            && Ledger(p, r', k, t) == Ledger(p, r, k, t) + Term(p, item.(at := applied), k, t)
  {
    hide Confirmed, Term;
    PendingInserts(p, r.counted, quote, item.(at := applied), k, t);
  }

  lemma ConfirmTracks(p: Params, r: Run, quote: string, item: Item, applied: nat, k: Key, t: nat)
    requires Sane(p) && StampedOk(r, applied) && applied <= t && Tracks(p, r, k, t)
    ensures Tracks(p, AfterConfirm(p, r, quote, item, applied), k, t)
    ensures StampedBy(Aggregate(AfterConfirm(p, r, quote, item, applied).books, k), applied)
  {
    if Countable(r.books, quote, item.token, item.delta) {
      var r' := AfterConfirm(p, r, quote, item, applied);
      ConfirmMovesNet(p, r, quote, item, applied, k, t);
      ConfirmMarks(p, r, quote, item, applied, k, t);
      hide AfterConfirm, StampedOk, StampedBy, Ledger, NetOf, Term, Slack, Hits, Aggregate;
      StepTracks(p, r.evictions(k), r.drift(k), Hits(item.party, item.token, k) && Aggregate(r'.books, k).None?, 0.0,
                 NetOf(p, r, k, t), Ledger(p, r, k, t), NetOf(p, r', k, t), Ledger(p, r', k, t), Term(p, item.(at := applied), k, t));
    }
  }

  lemma SettleTracks(p: Params, r: Run, quote: string, k: Key, t: nat)
    requires Tracks(p, r, k, t)
    ensures Tracks(p, AfterSettle(r, quote), k, t)
  {
    var r' := AfterSettle(r, quote);
    assert Aggregate(r'.books, k) == Aggregate(r.books, k);
    if quote in r.counted {
      PendingRemoves(p, r.counted, quote, k, t);
      SettledAppends(p, r.settled, r.counted[quote], k, t);
    }
    assert Ledger(p, r', k, t) == Ledger(p, r, k, t);
  }

  lemma SettledAppends(p: Params, log: seq<Item>, item: Item, k: Key, t: nat)
    ensures SettledSum(p, log + [item], k, t) == SettledSum(p, log, k, t) + Term(p, item, k, t)
  {
    assert (log + [item])[..|log|] == log;
  }

  lemma ReversalFades(p: Params, item: Item, now: nat, t: nat)
    requires Sane(p) && item.at <= now <= t
    ensures Faded(p, -Faded(p, item.delta, item.at, now), now, t) == -Faded(p, item.delta, item.at, t)
  {
    FadesOn(p, item.delta, item.at, now, t);
    FadesLinearly(p, Faded(p, item.delta, item.at, now), 0.0, now, t);
  }

  /** A release takes the delta as the pending entry stamps it from every later read. */
  lemma ReleaseMovesNet(p: Params, r: Run, quote: string, now: nat, k: Key, t: nat)
    requires Sane(p) && StampedOk(r, now) && now <= t && quote in r.books.pending
    ensures var r' := AfterRelease(p, r, quote, now); var item := r.books.pending[quote];
            && StampedBy(Aggregate(r'.books, k), now)
            && Abs(NetOf(p, r', k, t) - (NetOf(p, r, k, t) - Term(p, item, k, t)))
               <= if Hits(item.party, item.token, k) && Aggregate(r'.books, k).None? then p.epsilon else 0.0
  {
    var item := r.books.pending[quote];
    var dropped := Settled(r.books, quote);
    var reversal := -Faded(p, item.delta, item.at, now);
    assert AfterRelease(p, r, quote, now).books == Added(p, dropped, item.party, item.token, reversal, now);
    assert Aggregate(dropped, k) == Aggregate(r.books, k);
    NetAdds(p, dropped, item.party, item.token, reversal, now, k, t);
    ReversalFades(p, item, now, t);
  }

  /** The ledger loses the delta as it was applied. */
  lemma ReleaseMovesLedger(p: Params, r: Run, quote: string, now: nat, k: Key, t: nat)
    requires Sane(p) && StampedOk(r, now) && now <= t && quote in r.books.pending
    ensures var r' := AfterRelease(p, r, quote, now); var item := r.books.pending[quote];
            Abs(Ledger(p, r', k, t) - (Ledger(p, r, k, t) - Term(p, item, k, t)))
            <= if Hits(item.party, item.token, k) then Lag(p, item.delta, item.at, r.counted[quote].at) else 0.0
  {
    PendingRemoves(p, r.counted, quote, k, t);
    TermsDiffer(p, r.books.pending[quote], r.counted[quote].at, k, t);
    hide Term, Lag, Hits, Released;
  }

  lemma ReleaseMarks(p: Params, r: Run, quote: string, now: nat, k: Key)
    requires quote in r.books.pending && quote in r.counted
    requires r.counted[quote] == r.books.pending[quote].(at := r.counted[quote].at)
    ensures var item := r.books.pending[quote]; var r' := AfterRelease(p, r, quote, now); var hit := Hits(item.party, item.token, k);
            && r'.evictions(k) == r.evictions(k) + (if hit && Aggregate(r'.books, k).None? then 1 else 0)
            && r'.drift(k) == r.drift(k) + if hit then Lag(p, item.delta, item.at, r.counted[quote].at) else 0.0
  {
    hide Lag, Released;
  }

  lemma ReleaseTracks(p: Params, r: Run, quote: string, now: nat, k: Key, t: nat)
    requires Sane(p) && StampedOk(r, now) && now <= t && Tracks(p, r, k, t)
    ensures Tracks(p, AfterRelease(p, r, quote, now), k, t)
    ensures StampedBy(Aggregate(AfterRelease(p, r, quote, now).books, k), now)
  {
    if quote in r.books.pending {
      var item, r' := r.books.pending[quote], AfterRelease(p, r, quote, now);
      ReleaseMovesNet(p, r, quote, now, k, t);
      ReleaseMovesLedger(p, r, quote, now, k, t);
      ReleaseMarks(p, r, quote, now, k);
      hide AfterRelease, StampedOk, StampedBy, Ledger, NetOf, Lag, Term, Slack, Hits, Aggregate;
      var hit := Hits(item.party, item.token, k);
      StepTracks(p, r.evictions(k), r.drift(k), hit && Aggregate(r'.books, k).None?,
                 if hit then Lag(p, item.delta, item.at, r.counted[quote].at) else 0.0,
                 NetOf(p, r, k, t), Ledger(p, r, k, t), NetOf(p, r', k, t), Ledger(p, r', k, t), -Term(p, item, k, t));
    }
  }

  lemma SweptAggregate(p: Params, b: Books, now: nat, k: Key)
    ensures Aggregate(Swept(p, b, now), k) ==
              var e := Aggregate(b, k);
              if e.Some? && Abs(Faded(p, e.value.value, e.value.at, now)) > p.epsilon then e else None
  {
  }

  lemma SweepTracks(p: Params, r: Run, now: nat, k: Key, t: nat)
    requires Sane(p) && StampedBy(Aggregate(r.books, k), now) && now <= t && Tracks(p, r, k, t)
    ensures Tracks(p, AfterSweep(p, r, now), k, t)
    ensures StampedBy(Aggregate(AfterSweep(p, r, now).books, k), now)
  {
    var r' := AfterSweep(p, r, now);
    SweptAggregate(p, r.books, now, k);
    var evicted := Aggregate(r.books, k).Some? && Aggregate(r'.books, k).None?;
    if evicted {
      SweptReads(p, Aggregate(r.books, k), now, t);
    }
    assert r'.books.pending == r.books.pending;
    StepTracks(p, r.evictions(k), r.drift(k), evicted, 0.0,
               NetOf(p, r, k, t), Ledger(p, r, k, t), NetOf(p, r', k, t), Ledger(p, r', k, t), 0.0);
  }

  lemma ReleaseAgrees(p: Params, r: Run, quote: string, now: nat)
    requires Sane(p) && Agrees(p, r, now)
    ensures Agrees(p, AfterRelease(p, r, quote, now), now)
  {
    forall k, t: nat | t >= now
      ensures Tracks(p, AfterRelease(p, r, quote, now), k, t)
      ensures StampedBy(Aggregate(AfterRelease(p, r, quote, now).books, k), now)
    {
      assert Tracks(p, r, k, t);
      ReleaseTracks(p, r, quote, now, k, t);
    }
    forall k ensures StampedBy(Aggregate(AfterRelease(p, r, quote, now).books, k), now) {
      assert Tracks(p, r, k, now);
      ReleaseTracks(p, r, quote, now, k, now);
    }
  }

  lemma AgreesLater(p: Params, r: Run, now: nat, later: nat)
    requires Agrees(p, r, now) && now <= later
    ensures Agrees(p, r, later)
  {
    forall k ensures StampedBy(Aggregate(r.books, k), later) {
      assert StampedBy(Aggregate(r.books, k), now);
    }
  }

  lemma {:induction false} ExpireAgrees(p: Params, r: Run, order: seq<string>, clock: nat -> nat, from: nat, to: nat)
    requires Sane(p) && Agrees(p, r, from) && Reads(clock, |order|, from, to)
    ensures Agrees(p, AfterExpire(p, r, order, clock), if order == [] then from else clock(|order| - 1))
  {
    if order != [] {
      var n := |order| - 1;
      ExpireAgrees(p, r, order[..n], clock, from, to);
      hide Agrees;
      var before := AfterExpire(p, r, order[..n], clock);
      AgreesLater(p, before, if n == 0 then from else clock(n - 1), clock(n));
      ReleaseAgrees(p, before, order[n], clock(n));
    }
  }

  lemma ConfirmAgrees(p: Params, r: Run, quote: string, item: Item, applied: nat)
    requires Sane(p) && Agrees(p, r, applied) && item.at <= applied
    ensures Agrees(p, AfterConfirm(p, r, quote, item, applied), applied)
  {
    var r' := AfterConfirm(p, r, quote, item, applied);
    forall k, t: nat | t >= applied ensures Tracks(p, r', k, t) {
      assert Tracks(p, r, k, t);
      ConfirmTracks(p, r, quote, item, applied, k, t);
    }
    forall k ensures StampedBy(Aggregate(r'.books, k), applied) {
      assert Tracks(p, r, k, applied);
      ConfirmTracks(p, r, quote, item, applied, k, applied);
    }
    CountedAfterConfirm(p, r, quote, item, applied);
  }

  lemma CountedAfterConfirm(p: Params, r: Run, quote: string, item: Item, applied: nat)
    requires CountedOk(r, applied) && item.at <= applied
    ensures CountedOk(AfterConfirm(p, r, quote, item, applied), applied)
  {
    hide Rebased;
  }

  lemma SweepAgrees(p: Params, r: Run, now: nat)
    requires Sane(p) && Agrees(p, r, now)
    ensures Agrees(p, AfterSweep(p, r, now), now)
  {
    forall k, t: nat | t >= now ensures Tracks(p, AfterSweep(p, r, now), k, t) {
      assert Tracks(p, r, k, t);
      SweepTracks(p, r, now, k, t);
    }
    forall k ensures StampedBy(Aggregate(AfterSweep(p, r, now).books, k), now) {
      assert Tracks(p, r, k, now);
      SweepTracks(p, r, now, k, now);
    }
  }

  lemma SettleAgrees(p: Params, r: Run, quote: string, now: nat)
    requires Agrees(p, r, now)
    ensures Agrees(p, AfterSettle(r, quote), now)
  {
    forall k, t: nat | t >= now ensures Tracks(p, AfterSettle(r, quote), k, t) {
      assert Tracks(p, r, k, t);
      SettleTracks(p, r, quote, k, t);
    }
    forall k ensures StampedBy(Aggregate(AfterSettle(r, quote).books, k), now) {
      assert Aggregate(AfterSettle(r, quote).books, k) == Aggregate(r.books, k);
    }
  }

  /**
   In every run of confirms, settles, releases, expiries and sweeps, and at every later moment, each party's
   net and each desk net reads as the sum of the counted and not released deltas, each decayed since it was
   applied: up to epsilon for each time that aggregate was evicted, and up to the lag between its two
   stamps for each released quote.
   */
  lemma {:induction false} AggregatesTrackLedger(p: Params, history: seq<Timed>)
    requires Sane(p) && Monotone(history)
    ensures Agrees(p, After(p, history), After(p, history).now)
  {
    if history == [] {
      forall k, t: nat ensures Tracks(p, START, k, t) {
        assert PendingTerms(p, map[], k, t) == map[];
      }
    } else {
      hide Agrees, AfterConfirm, AfterRelease, AfterSettle, AfterSweep, AfterExpire;
      var n := |history| - 1;
      var r, last := After(p, history[..n]), history[n];
      AggregatesTrackLedger(p, history[..n]);
      LastReadingIsNow(p, history[..n]);
      AgreesLater(p, r, r.now, last.now);
      match last.event {
        case Confirm(q, party, token, delta, at) => ConfirmAgrees(p, r, q, Item(party, token, delta, at), last.now);
        case Settle(q) => SettleAgrees(p, r, q, last.now);
        case Release(q) => ReleaseAgrees(p, r, q, last.now);
        case Expire(order, clock) =>
          ExpireAgrees(p, r, order, clock, r.now, last.now);
          AgreesLater(p, AfterExpire(p, r, order, clock), if order == [] then r.now else clock(|order| - 1), last.now);
        case Sweep => SweepAgrees(p, r, last.now);
      }
      SameBooksAgree(p, After(p, history), last.now);
    }
  }

  lemma LastReadingIsNow(p: Params, history: seq<Timed>)
    ensures After(p, history).now == LastReading(history)
  {
  }

  lemma SameBooksAgree(p: Params, r: Run, now: nat)
    requires exists other :: Agrees(p, other, now) && r == other.(now := now)
    ensures Agrees(p, r, now)
  {
    var other :| Agrees(p, other, now) && r == other.(now := now);
    forall k, t: nat | t >= now ensures Tracks(p, r, k, t) {
      assert Tracks(p, other, k, t);
    }
  }

  // With one reading per confirm

  predicate OneReading(history: seq<Timed>) {
    forall i :: 0 <= i < |history| && history[i].event.Confirm? ==> history[i].event.at == history[i].now
  }

  /** No release has missed, and none will. */
  ghost predicate NoDrift(r: Run) {
    && (forall k :: r.drift(k) == 0.0) && r.counted.Keys == r.books.pending.Keys
    && forall q :: q in r.counted ==> r.counted[q].at == r.books.pending[q].at
  }

  lemma ReleaseWithoutDrift(p: Params, r: Run, quote: string, now: nat)
    requires NoDrift(r)
    ensures NoDrift(AfterRelease(p, r, quote, now))
  {
    hide Rebased;
    assert Pow(p.rate, 0) == 1.0;
  }

  lemma ConfirmWithoutDrift(p: Params, r: Run, quote: string, item: Item, applied: nat)
    requires NoDrift(r) && item.at == applied
    ensures NoDrift(AfterConfirm(p, r, quote, item, applied))
  {
    hide Rebased;
  }

  lemma {:induction false} ExpireWithoutDrift(p: Params, r: Run, order: seq<string>, clock: nat -> nat)
    requires NoDrift(r)
    ensures NoDrift(AfterExpire(p, r, order, clock))
  {
    if order != [] {
      var n := |order| - 1;
      ExpireWithoutDrift(p, r, order[..n], clock);
      ReleaseWithoutDrift(p, AfterExpire(p, r, order[..n], clock), order[n], clock(n));
    }
  }

  lemma {:induction false} OneReadingNoDrift(p: Params, history: seq<Timed>)
    requires OneReading(history)
    ensures NoDrift(After(p, history))
  {
    if history != [] {
      var n := |history| - 1;
      var r, last := After(p, history[..n]), history[n];
      OneReadingNoDrift(p, history[..n]);
      hide AfterConfirm, AfterRelease, AfterExpire;
      match last.event {
        case Release(q) => ReleaseWithoutDrift(p, r, q, last.now);
        case Expire(order, clock) => ExpireWithoutDrift(p, r, order, clock);
        case Confirm(q, party, token, delta, at) => ConfirmWithoutDrift(p, r, q, Item(party, token, delta, at), last.now);
        case _ => hide Rebased;
      }
    }
  }

  lemma {:induction false} ExpiryIsReleases(p: Params, r: Run, order: seq<string>, clock: nat -> nat)
    ensures AfterExpire(p, r, order, clock).books == ReleasedAll(p, r.books, order, clock)
  {
    if order != [] {
      ExpiryIsReleases(p, r, order[..|order| - 1], clock);
    }
  }

  // What single operations do

  /** The aggregates a quote moves: the desk's in its token and, if it names a party, that party's. */
  predicate Moves(item: Item, k: Key) {
    k == Desk(item.token) || (item.party.Some? && k == Party(item.party.value, item.token))
  }

  /**
   A confirm with a delta of either sign, a token and no pending entry yet becomes pending and moves the desk's and its
   party's every later read by its decayed delta, up to epsilon; any other confirm changes nothing.
   */
  lemma ConfirmExactly(p: Params, b: Books, quote: string, item: Item, applied: nat, k: Key, t: nat)
    requires Sane(p) && StampedBy(Aggregate(b, k), applied) && applied <= t
    ensures var counts := item.delta != 0.0 && item.token != "" && quote !in b.pending;
            var b' := Confirmed(p, b, quote, item, applied);
            && (!counts ==> b' == b)
            && (counts ==>
                  && b'.pending == b.pending[quote := item]
                  && Abs(Read(p, Aggregate(b', k), t)
                         - (Read(p, Aggregate(b, k), t) + if Moves(item, k) then Faded(p, item.delta, applied, t) else 0.0)) <= p.epsilon)
  {
    var entered := b.(pending := b.pending[quote := item]);
    assert Aggregate(entered, k) == Aggregate(b, k);
    NetAdds(p, entered, item.party, item.token, item.delta, applied, k, t);
    assert Hits(item.party, item.token, k) <==> Moves(item, k);
    hide Rebased, Read, Faded;
  }

  /** An aggregate reads as its value at its own stamp, and falls to the rate's fraction with every millisecond after it. */
  lemma ReadsFade(p: Params, entry: DecayedNet, t: nat)
    requires t >= entry.at
    ensures Read(p, Some(entry), entry.at) == entry.value
    ensures Read(p, Some(entry), t + 1) == p.rate * Read(p, Some(entry), t)
  {
    assert Elapsed(entry.at, t + 1) == Elapsed(entry.at, t) + 1;
    Associates(p.rate, entry.value, Pow(p.rate, Elapsed(entry.at, t)));
    Associates(entry.value, p.rate, Pow(p.rate, Elapsed(entry.at, t)));
  }

  /** A sweep drops exactly the aggregates reading at most epsilon and leaves the others and the pending quotes alone. */
  lemma SweepExactly(p: Params, b: Books, now: nat, k: Key)
    ensures Swept(p, b, now).pending == b.pending
    ensures Aggregate(Swept(p, b, now), k) ==
              var e := Aggregate(b, k);
              if e.Some? && -p.epsilon <= Read(p, e, now) <= p.epsilon then None else e
  {
    SweptAggregate(p, b, now, k);
  }

  lemma {:induction false} ReleasesLeave(p: Params, b: Books, order: seq<string>, clock: nat -> nat)
    ensures var pending := ReleasedAll(p, b, order, clock).pending;
            forall q :: if q in order then q !in pending else (q in pending <==> q in b.pending) && (q in pending ==> pending[q] == b.pending[q])
  {
    if order != [] {
      var n := |order| - 1;
      ReleasesLeave(p, b, order[..n], clock);
      assert forall q :: q in order <==> q in order[..n] || q == order[n];
    }
  }

  /** An expiry leaves exactly the pending quotes no older than the limit, as they were. */
  lemma ExpiryLeavesTheYoung(p: Params, b: Books, order: seq<string>, now: nat, clock: nat -> nat, quote: string)
    requires Enumerates(order, StaleQuotes(p, b, now))
    ensures var pending := ReleasedAll(p, b, order, clock).pending;
            && (quote in pending <==> quote in b.pending && b.pending[quote].at + p.staleAfter >= now)
            && (quote in pending ==> pending[quote] == b.pending[quote])
  {
    ReleasesLeave(p, b, order, clock);
    hide ReleasedAll;
  }
}
