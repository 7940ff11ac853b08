/**
 Trailing signed net flow per (counterparty, token) and per token. Aggregates are decayed lazily: each holds
 its value as of its own stamp, and only writers rebase it.
 */
module NetPosition {
  import opened Wrappers
  import opened Decay

  /** `rate` is the decay per millisecond; values of at most `epsilon` are dropped; pendings older than `staleAfter` are reversed. */
  datatype Params = Params(rate: real, epsilon: real, staleAfter: nat)

  ghost predicate Sane(p: Params) {
    0.0 < p.rate <= 1.0 && p.epsilon >= 0.0
  }

  datatype DecayedNet = DecayedNet(value: real, at: nat)

  /** A counted quote: the signed base delta applied at confirm, and when. */
  datatype Item = Item(party: Option<string>, token: string, delta: real, at: nat)

  datatype Books = Books(nets: map<(string, string), DecayedNet>, desk: map<string, DecayedNet>, pending: map<string, Item>)

  const EMPTY := Books(map[], map[], map[])

  /** One aggregate: a party's net in a token, or the desk's net in a token over all parties. */
  datatype Key = Party(party: string, token: string) | Desk(token: string)

  function Elapsed(from: nat, to: nat): nat {
    if to >= from then to - from else 0
  }

  ghost function Faded(p: Params, value: real, from: nat, to: nat): real {
    value * Pow(p.rate, Elapsed(from, to))
  }

  ghost function Read(p: Params, entry: Option<DecayedNet>, now: nat): real {
    if entry.Some? then Faded(p, entry.value.value, entry.value.at, now) else 0.0
  }

  function Aggregate(b: Books, k: Key): Option<DecayedNet> {
    match k
    case Party(party, token) => Get(b.nets, (party, token))
    case Desk(token) => Get(b.desk, token)
  }

  /** Decays the aggregate to `now`, adds to it and restamps it; a negligible result is dropped. */
  ghost function Rebased(p: Params, entry: Option<DecayedNet>, add: real, now: nat): Option<DecayedNet> {
    var value := Read(p, entry, now) + add;
    if Abs(value) <= p.epsilon then None else Some(DecayedNet(value, now))
  }

  ghost function Added(p: Params, b: Books, party: Option<string>, token: string, add: real, now: nat): Books {
    b.(nets := if party.None? then b.nets
               else Put(b.nets, (party.value, token), Rebased(p, Get(b.nets, (party.value, token)), add, now)),
       desk := Put(b.desk, token, Rebased(p, Get(b.desk, token), add, now)))
  }

  predicate Countable(b: Books, quote: string, token: string, delta: real) {
    delta != 0.0 && token != "" && quote !in b.pending
  }

  /** The pending entry is stamped `item.at`; the aggregates are rebased to a second clock reading. */
  ghost function Confirmed(p: Params, b: Books, quote: string, item: Item, applied: nat): Books {
    if Countable(b, quote, item.token, item.delta)
    then Added(p, b.(pending := b.pending[quote := item]), item.party, item.token, item.delta, applied)
    else b
  }

  function Settled(b: Books, quote: string): Books {
    b.(pending := b.pending - {quote})
  }

  /** Reverses a pending delta as it now stands after decay. */
  ghost function Released(p: Params, b: Books, quote: string, now: nat): Books {
    if quote !in b.pending then b
    else
      var item := b.pending[quote];
      Added(p, Settled(b, quote), item.party, item.token, -Faded(p, item.delta, item.at, now), now)
  }

  predicate Stale(p: Params, item: Item, now: nat) {
    item.at < now - p.staleAfter
  }

  /** Releases one after the other, the `i`-th at clock reading `clock(i)`. */
  ghost function ReleasedAll(p: Params, b: Books, quotes: seq<string>, clock: nat -> nat): Books {
    if quotes == [] then b
    else
      var n := |quotes| - 1;
      Released(p, ReleasedAll(p, b, quotes[..n], clock), quotes[n], clock(n))
  }

  ghost function Kept<K>(p: Params, m: map<K, DecayedNet>, now: nat): map<K, DecayedNet> {
    map k | k in m && Abs(Faded(p, m[k].value, m[k].at, now)) > p.epsilon :: m[k]
  }

  ghost function Swept(p: Params, b: Books, now: nat): Books {
    b.(nets := Kept(p, b.nets, now), desk := Kept(p, b.desk, now))
  }

  ghost predicate Enumerates(quotes: seq<string>, stale: set<string>) {
    (forall q :: q in quotes <==> q in stale) && forall i, j :: 0 <= i < j < |quotes| ==> quotes[i] != quotes[j]
  }

  ghost function StaleQuotes(p: Params, b: Books, now: nat): set<string> {
    set q | q in b.pending && Stale(p, b.pending[q], now)
  }

  /** The tracker's maps; `fade` is the program's decay, equal to the mathematical one. */
  class NetPositionTracker {
    ghost const params: Params
    const epsilon: real
    const staleAfter: nat
    const fade: (real, nat, nat) -> real
    var nets: map<(string, string), DecayedNet>
    var desk: map<string, DecayedNet>
    var pending: map<string, Item>
    var dirty: bool

    ghost predicate Valid() {
      && epsilon == params.epsilon && staleAfter == params.staleAfter
      && forall v, from, to :: fade(v, from, to) == Faded(params, v, from, to)
    }

    ghost function State(): Books
      reads this
    {
      Books(nets, desk, pending)
    }

    constructor (ghost params: Params, epsilon: real, staleAfter: nat, fade: (real, nat, nat) -> real)
      requires epsilon == params.epsilon && staleAfter == params.staleAfter
      requires forall v, from, to :: fade(v, from, to) == Faded(params, v, from, to)
      ensures Valid() && State() == EMPTY && this.params == params
    {
      this.params, this.epsilon, this.staleAfter, this.fade := params, epsilon, staleAfter, fade;
      nets, desk, pending, dirty := map[], map[], map[], false;
    }

    method Rebase(entry: Option<DecayedNet>, add: real, now: nat) returns (r: Option<DecayedNet>)
      requires Valid()
      ensures r == Rebased(params, entry, add, now)
    {
      var e := if entry.Some? then entry.value else DecayedNet(0.0, now);
      var value := fade(e.value, e.at, now) + add;
      r := if Abs(value) <= epsilon then None else Some(DecayedNet(value, now));
    }

    method ApplyDelta(party: Option<string>, token: string, add: real, now: nat)
      requires Valid()
      modifies this
      ensures State() == Added(params, old(State()), party, token, add, now)
    {
      if party.Some? {
        var key := (party.value, token);
        var entry := Rebase(Get(nets, key), add, now);
        nets := Put(nets, key, entry);
      }
      var entry := Rebase(Get(desk, token), add, now);
      desk := Put(desk, token, entry);
      dirty := true;
    }

    /** Reads the clock at `now` for the net and the pending entry, and again at `applied` for the aggregates. */
    method CheckAndRecord(quote: string, party: Option<string>, token: string, delta: real,
                          accept: real -> bool, now: nat, applied: nat) returns (accepted: bool)
      requires Valid()
      modifies this
      ensures accepted == accept(if party.Some? then Read(params, Aggregate(old(State()), Party(party.value, token)), now) else 0.0)
      ensures State() == if accepted then Confirmed(params, old(State()), quote, Item(party, token, delta, now), applied) else old(State())
    {
      var net := 0.0;
      if party.Some? && (party.value, token) in nets {
        var e := nets[(party.value, token)];
        net := fade(e.value, e.at, now);
      }
      if !accept(net) {
        return false;
      }
      if delta != 0.0 && token != "" && quote !in pending {
        pending := pending[quote := Item(party, token, delta, now)];
        ApplyDelta(party, token, delta, applied);
      }
      return true;
    }

    method Settle(quote: string)
      modifies this
      ensures State() == Settled(old(State()), quote)
    {
      if quote in pending {
        pending := pending - {quote};
        dirty := true;
      }
    }

    method Release(quote: string, now: nat)
      requires Valid()
      modifies this
      ensures State() == Released(params, old(State()), quote, now)
    {
      if quote in pending {
        var item := pending[quote];
        pending := pending - {quote};
        var remaining := fade(item.delta, item.at, now);
        ApplyDelta(item.party, item.token, -remaining, now);
      }
    }

    /** Reverses every pending stale at `now`, in whatever order the map yields them, each at its own clock reading. */
    method ExpireStalePending(now: nat, clock: nat -> nat) returns (ghost order: seq<string>)
      requires Valid()
      modifies this
      ensures Enumerates(order, StaleQuotes(params, old(State()), now))
      ensures State() == ReleasedAll(params, old(State()), order, clock)
    {
      hide ReleasedAll, Released;
      order := [];
      NoneReleased(params, State(), clock);
      var done := 0;
      var stale := set q | q in pending && pending[q].at < now - staleAfter;
      while stale != {}
        invariant done == |order|
        invariant (forall q :: q in StaleQuotes(params, old(State()), now) <==> q in order || q in stale)
        invariant (forall q :: q in order ==> q !in stale)
        invariant forall i, j :: 0 <= i < j < |order| ==> order[i] != order[j]
        invariant State() == ReleasedAll(params, old(State()), order, clock)
      {
        var quote :| quote in stale;
        ReleasedOneMore(params, old(State()), order, quote, clock);
        Release(quote, clock(done));
        order := order + [quote];
        stale := stale - {quote};
        done := done + 1;
      }
    }

    method Retain<K(==)>(m: map<K, DecayedNet>, now: nat) returns (kept: map<K, DecayedNet>)
      requires Valid()
      ensures kept == Kept(params, m, now) && |kept| <= |m|
    {
      kept := map k | k in m && Abs(fade(m[k].value, m[k].at, now)) > epsilon :: m[k];
      FewerEntries(kept, m);
    }

    method SweepDecayed(now: nat) returns (dropped: nat)
      requires Valid()
      modifies this
      ensures State() == Swept(params, old(State()), now)
      ensures dropped == |old(nets)| + |old(desk)| - |nets| - |desk|
    {
      var before := |nets| + |desk|;
      var keptNets := Retain(nets, now);
      var keptDesk := Retain(desk, now);
      nets, desk := keptNets, keptDesk;
      dropped := before - (|nets| + |desk|);
      if dropped > 0 {
        dirty := true;
      }
    }
  }

  lemma NoneReleased(p: Params, b: Books, clock: nat -> nat)
    ensures ReleasedAll(p, b, [], clock) == b
  {
  }

  lemma ReleasedOneMore(p: Params, b: Books, order: seq<string>, quote: string, clock: nat -> nat)
    ensures ReleasedAll(p, b, order + [quote], clock) == Released(p, ReleasedAll(p, b, order, clock), quote, clock(|order|))
  {
    assert (order + [quote])[..|order|] == order;
  }

  lemma {:induction false} FewerEntries<K>(small: map<K, DecayedNet>, big: map<K, DecayedNet>)
    requires small.Keys <= big.Keys
    ensures |small| <= |big|
    decreases small.Keys
  {
    if small != map[] {
      var k :| k in small;
      assert (small - {k}).Keys == small.Keys - {k} && (big - {k}).Keys == big.Keys - {k};
      FewerEntries(small - {k}, big - {k});
    }
  }
}
