/** What the ledger invariant gives a reader: exact nets, and the desk as the sum of its parties. */
module NetReconciliation {
  import opened Wrappers
  import opened MapSums
  import opened NetPosition
  import opened NetLedger

  /** Every net reads as the ledger, within epsilon per eviction and the drift of releases; without either, exactly. */
  lemma NetReadsAsLedger(p: Params, history: seq<Timed>, k: Key, t: nat)
    requires Sane(p) && Monotone(history) && t >= After(p, history).now
    ensures var r := After(p, history);
            && Abs(NetOf(p, r, k, t) - Ledger(p, r, k, t)) <= p.epsilon * r.evictions(k) as real + r.drift(k)
            && (p.epsilon == 0.0 && OneReading(history) ==> NetOf(p, r, k, t) == Ledger(p, r, k, t))
  {
    hide After, Monotone, Ledger, NetOf, Slack, OneReading;
    AggregatesTrackLedger(p, history);
    var r := After(p, history);
    assert Tracks(p, r, k, t);
    ErrorIs(p, r.evictions(k));
    if OneReading(history) {
      OneReadingNoDrift(p, history);
      assert r.drift(k) == 0.0;
    }
  }

  lemma ErrorIs(p: Params, n: nat)
    ensures Slack(p, n) == p.epsilon * n as real && (p.epsilon == 0.0 ==> Slack(p, n) == 0.0)
  {
    SlackIs(p, n);
  }

  // The desk and its parties

  /** How far an aggregate may read from its ledger. */
  ghost function Error(p: Params, r: Run, k: Key): real {
    Slack(p, r.evictions(k)) + r.drift(k)
  }

  ghost function Total(parties: set<string>, f: string -> real): real {
    Sum(map party | party in parties :: f(party))
  }

  lemma TotalWithout(parties: set<string>, f: string -> real, party: string)
    requires party in parties
    ensures Total(parties, f) == f(party) + Total(parties - {party}, f)
  {
    var m := map q | q in parties :: f(q);
    SumRemove(m, party);
    assert m - {party} == map q | q in parties - {party} :: f(q);
  }

  lemma {:induction false} TotalAdds(parties: set<string>, f: string -> real, g: string -> real, h: string -> real)
    requires forall party :: party in parties ==> h(party) == f(party) + g(party)
    ensures Total(parties, h) == Total(parties, f) + Total(parties, g)
  {
    if parties != {} {
      var party :| party in parties;
      TotalWithout(parties, f, party);
      TotalWithout(parties, g, party);
      TotalWithout(parties, h, party);
      TotalAdds(parties - {party}, f, g, h);
    }
  }

  lemma {:induction false} TotalClose(parties: set<string>, f: string -> real, g: string -> real, bound: string -> real)
    requires forall party :: party in parties ==> Abs(f(party) - g(party)) <= bound(party)
    ensures Abs(Total(parties, f) - Total(parties, g)) <= Total(parties, bound)
  {
    if parties != {} {
      var party :| party in parties;
      TotalWithout(parties, f, party);
      TotalWithout(parties, g, party);
      TotalWithout(parties, bound, party);
      TotalClose(parties - {party}, f, g, bound);
    }
  }

  lemma {:induction false} TotalOfOne(parties: set<string>, f: string -> real, only: Option<string>)
    requires forall party :: party in parties && only != Some(party) ==> f(party) == 0.0
    requires only.Some? ==> only.value in parties
    ensures Total(parties, f) == if only.Some? then f(only.value) else 0.0
  {
    if parties != {} {
      var party :| party in parties;
      var pick := if only.Some? then only.value else party;
      TotalWithout(parties, f, pick);
      TotalOfOne(parties - {pick}, f, None);
    }
  }

  /** Confirms that named no party. */
  ghost function Partyless(p: Params, item: Item, token: string, t: nat): real {
    if item.party.None? && item.token == token then Faded(p, item.delta, item.at, t) else 0.0
  }

  ghost function PartylessTerms(p: Params, pending: map<string, Item>, token: string, t: nat): map<string, real> {
    map q | q in pending :: Partyless(p, pending[q], token, t)
  }

  ghost function PartylessSettled(p: Params, log: seq<Item>, token: string, t: nat): real {
    if log == [] then 0.0 else PartylessSettled(p, log[..|log| - 1], token, t) + Partyless(p, log[|log| - 1], token, t)
  }

  ghost function PartylessFlow(p: Params, r: Run, token: string, t: nat): real {
    PartylessSettled(p, r.settled, token, t) + Sum(PartylessTerms(p, r.counted, token, t))
  }

  ghost predicate Names(parties: set<string>, r: Run) {
    && (forall i :: 0 <= i < |r.settled| && r.settled[i].party.Some? ==> r.settled[i].party.value in parties)
    && (forall q :: q in r.counted && r.counted[q].party.Some? ==> r.counted[q].party.value in parties)
  }

  lemma ItemSplits(p: Params, item: Item, parties: set<string>, token: string, t: nat)
    requires item.party.Some? ==> item.party.value in parties
    ensures Term(p, item, Desk(token), t)
            == Total(parties, party => Term(p, item, Party(party, token), t)) + Partyless(p, item, token, t)
  {
    TotalOfOne(parties, party => Term(p, item, Party(party, token), t), item.party);
  }

  lemma {:induction false} SettledSplits(p: Params, log: seq<Item>, parties: set<string>, token: string, t: nat)
    requires forall i :: 0 <= i < |log| && log[i].party.Some? ==> log[i].party.value in parties
    ensures SettledSum(p, log, Desk(token), t)
            == Total(parties, party => SettledSum(p, log, Party(party, token), t)) + PartylessSettled(p, log, token, t)
  {
    if log == [] {
      TotalOfOne(parties, party => SettledSum(p, log, Party(party, token), t), None);
    } else {
      var before, item := log[..|log| - 1], log[|log| - 1];
      SettledSplits(p, before, parties, token, t);
      ItemSplits(p, item, parties, token, t);
      TotalAdds(parties, party => SettledSum(p, before, Party(party, token), t),
                party => Term(p, item, Party(party, token), t), party => SettledSum(p, log, Party(party, token), t));
    }
  }

  lemma PartylessRemoves(p: Params, pending: map<string, Item>, quote: string, token: string, t: nat)
    requires quote in pending
    ensures Sum(PartylessTerms(p, pending, token, t))
            == Sum(PartylessTerms(p, pending - {quote}, token, t)) + Partyless(p, pending[quote], token, t)
  {
    var terms := PartylessTerms(p, pending, token, t);
    SumRemove(terms, quote);
    assert PartylessTerms(p, pending - {quote}, token, t) == terms - {quote};
  }

  lemma {:induction false} PendingSplits(p: Params, pending: map<string, Item>, parties: set<string>, token: string, t: nat)
    requires forall q :: q in pending && pending[q].party.Some? ==> pending[q].party.value in parties
    ensures Sum(PendingTerms(p, pending, Desk(token), t))
            == Total(parties, party => Sum(PendingTerms(p, pending, Party(party, token), t)))
               + Sum(PartylessTerms(p, pending, token, t))
    decreases pending.Keys
  {
    var whole := party => Sum(PendingTerms(p, pending, Party(party, token), t));
    if pending == map[] {
      forall k ensures PendingTerms(p, pending, k, t) == map[] {
      }
      assert PartylessTerms(p, pending, token, t) == map[];
      TotalOfOne(parties, whole, None);
    } else {
      var quote :| quote in pending;
      var rest := pending - {quote};
      PendingSplits(p, rest, parties, token, t);
      PendingRemoves(p, pending, quote, Desk(token), t);
      PartylessRemoves(p, pending, quote, token, t);
      ItemSplits(p, pending[quote], parties, token, t);
      forall party | party in parties
        ensures whole(party) == Sum(PendingTerms(p, rest, Party(party, token), t)) + Term(p, pending[quote], Party(party, token), t)
      {
        PendingRemoves(p, pending, quote, Party(party, token), t);
      }
      TotalAdds(parties, party => Sum(PendingTerms(p, rest, Party(party, token), t)),
                party => Term(p, pending[quote], Party(party, token), t), whole);
    }
  }

  lemma LedgerSplits(p: Params, r: Run, parties: set<string>, token: string, t: nat)
    requires Names(parties, r)
    ensures Ledger(p, r, Desk(token), t)
            == Total(parties, party => Ledger(p, r, Party(party, token), t)) + PartylessFlow(p, r, token, t)
  {
    SettledSplits(p, r.settled, parties, token, t);
    PendingSplits(p, r.counted, parties, token, t);
    TotalAdds(parties, party => SettledSum(p, r.settled, Party(party, token), t),
              party => Sum(PendingTerms(p, r.counted, Party(party, token), t)),
              party => Ledger(p, r, Party(party, token), t));
  }

  /**
   In every run the desk's net in a token is the sum of all parties' nets plus the party-less flow, up to
   the evictions of those aggregates and the drift of releases.
   */
  lemma DeskIsSumOfParties(p: Params, history: seq<Timed>, parties: set<string>, token: string, t: nat)
    requires Sane(p) && Monotone(history) && t >= After(p, history).now && Names(parties, After(p, history))
    ensures var r := After(p, history);
            Abs(NetOf(p, r, Desk(token), t)
                - (Total(parties, party => NetOf(p, r, Party(party, token), t)) + PartylessFlow(p, r, token, t)))
            <= Error(p, r, Desk(token)) + Total(parties, party => Error(p, r, Party(party, token)))
  {
    hide After, Monotone, NetOf, PartylessFlow, Total, Error;
    AggregatesTrackLedger(p, history);
    DeskTracksParties(p, After(p, history), parties, token, t);
  }

  lemma DeskTracksParties(p: Params, r: Run, parties: set<string>, token: string, t: nat)
    requires Agrees(p, r, r.now) && t >= r.now && Names(parties, r)
    ensures Abs(NetOf(p, r, Desk(token), t)
                - (Total(parties, party => NetOf(p, r, Party(party, token), t)) + PartylessFlow(p, r, token, t)))
            <= Error(p, r, Desk(token)) + Total(parties, party => Error(p, r, Party(party, token)))
  {
    LedgerSplits(p, r, parties, token, t);
    assert Tracks(p, r, Desk(token), t);
    PartiesTrack(p, r, parties, token, t);
  }

  lemma PartiesTrack(p: Params, r: Run, parties: set<string>, token: string, t: nat)
    requires Agrees(p, r, r.now) && t >= r.now
    ensures Abs(Total(parties, party => NetOf(p, r, Party(party, token), t))
                - Total(parties, party => Ledger(p, r, Party(party, token), t)))
            <= Total(parties, party => Error(p, r, Party(party, token)))
  {
    forall party | party in parties ensures Tracks(p, r, Party(party, token), t) {
    }
    TotalClose(parties, party => NetOf(p, r, Party(party, token), t), party => Ledger(p, r, Party(party, token), t),
               party => Error(p, r, Party(party, token)));
  }
}
