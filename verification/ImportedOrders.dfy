/** Orders looked up on the server: what is imported, and what the tracker holds of orders it did not place. */
module ImportedOrders {
  import opened Decimals
  import opened OrderTracking
  import opened TrackerAccounting

  /** Carries our key's signature, a nonce after the start, and no negative amount. */
  predicate SignedByUs(cfg: Config, o: ServerOrder) {
    && o.signature.Some? && o.signature.value != "" && cfg.keyAvailable && cfg.verifies(o.signedData, o.signature.value)
    && o.nonce > cfg.startTime
    && (o.quantity.Some? ==> o.quantity.value >= 0.0) && (o.filled.Some? ==> o.filled.value >= 0.0)
    && (o.pending.Some? ==> o.pending.value >= 0.0)
  }

  function Amount(raw: Parsed): Decimal {
    if raw.Some? then raw.value else 0.0
  }

  /**
   An untracked order is imported exactly when we signed it, with the server's amounts and as not placed by the
   agent, and accepted exactly when a positive request then fits; nothing else is touched.
   */
  lemma ImportExact(cfg: Config, t: Tracker, o: ServerOrder, p: Proposal)
    requires o.orderId !in t.orders
    ensures var t' := AfterImport(cfg, t, o);
            && (o.orderId in t'.orders <==> SignedByUs(cfg, o)) && (!SignedByUs(cfg, o) ==> t' == t)
            && (SignedByUs(cfg, o) ==>
                  t' == t.(orders := t.orders[o.orderId := TrackedOrder(o.market, Amount(o.quantity), Amount(o.filled), Amount(o.pending),
                                                                        o.nonce, o.signature.value, o.signedData, false, true)]))
    ensures ImportVerdict(cfg, t, o, p) == Accepted(o.orderId) <==>
              && SignedByUs(cfg, o) && Amount(p.baseQuantity) > 0.0
              && Amount(o.filled) + Amount(o.pending) + Amount(p.baseQuantity) <= Amount(o.quantity)
  {
  }

  /** Of an order the agent did not place, the tracker holds only what our key signed after the start. */
  ghost predicate ForeignSigned(cfg: Config, t: Tracker, id: nat) {
    id in t.orders && !t.orders[id].byAgent ==>
      && cfg.keyAvailable && cfg.verifies(t.orders[id].signedData, t.orders[id].signature)
      && t.orders[id].signature != "" && t.orders[id].nonce > cfg.startTime
  }

  lemma StepKeepsForeignSigned(cfg: Config, t: Tracker, e: Event, now: nat, id: nat)
    requires ForeignSigned(cfg, t, id)
    ensures ForeignSigned(cfg, Apply(cfg, t, e, now), id)
  {
    hide Prune, FirstMatch, RemainingCapacity;
  }

  /** In every run, whatever the server lists and whoever calls. */
  lemma {:induction false} ForeignOrdersAreSigned(cfg: Config, history: seq<Timed>, id: nat)
    ensures ForeignSigned(cfg, After(cfg, history).t, id)
  {
    if history != [] {
      var n := |history| - 1;
      ForeignOrdersAreSigned(cfg, history[..n], id);
      StepKeepsForeignSigned(cfg, After(cfg, history[..n]).t, history[n].event, history[n].now, id);
      hide Apply, ForeignSigned;
    }
  }
}
