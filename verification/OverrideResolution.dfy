/** Venue overrides layered over a pair's RFQ configuration: least specific first, ties in file order. */
module OverrideResolution {
  import opened Wrappers
  import opened StableSort

  /** Settings no overlay carries: the closed sides and what only venue-less requests use. */
  datatype PairOnly = PairOnly(
    disableOfferSide: bool, disableBidSide: bool, allocateBeforeSecs: nat, settleBeforeSecs: nat,
    minNotionalUsd: Option<real>)

  datatype RfqConfig = RfqConfig(
    enabled: bool, minQuantity: string, maxQuantity: string, bidSpread: real, offerSpread: real,
    noOverloadWidening: bool, noDepletionWidening: bool, quoteValidSecs: Option<nat>, pairOnly: PairOnly)

  datatype Overlay = Overlay(
    enabled: Option<bool>, minQuantity: Option<string>, maxQuantity: Option<string>,
    bidSpread: Option<real>, offerSpread: Option<real>,
    noOverloadWidening: Option<bool>, noDepletionWidening: Option<bool>, quoteValidSecs: Option<nat>)

  datatype Override = Override(venue: string, branch: Option<string>, markets: Option<seq<string>>, rfq: Overlay)

  datatype Request = Request(market: string, venue: string, branch: Option<string>)

  predicate Matches(o: Override, q: Request) {
    && o.venue == q.venue
    && (o.branch.Some? ==> q.branch == o.branch)
    && (o.markets.Some? ==> q.market in o.markets.value)
  }

  function Specificity(o: Override): nat {
    (if o.branch.Some? then 1 else 0) + if o.markets.Some? then 1 else 0
  }

  function Apply(o: Overlay, cfg: RfqConfig): RfqConfig {
    RfqConfig(o.enabled.GetOr(cfg.enabled), o.minQuantity.GetOr(cfg.minQuantity), o.maxQuantity.GetOr(cfg.maxQuantity),
              o.bidSpread.GetOr(cfg.bidSpread), o.offerSpread.GetOr(cfg.offerSpread),
              o.noOverloadWidening.GetOr(cfg.noOverloadWidening), o.noDepletionWidening.GetOr(cfg.noDepletionWidening),
              if o.quoteValidSecs.Some? then o.quoteValidSecs else cfg.quoteValidSecs, cfg.pairOnly)
  }

  /** Positions of the matching entries among the first `n`, in file order. */
  function MatchingUpTo(overrides: seq<Override>, q: Request, n: nat): seq<nat>
    requires n <= |overrides|
  {
    if n == 0 then []
    else MatchingUpTo(overrides, q, n - 1) + if Matches(overrides[n - 1], q) then [n - 1] else []
  }

  function Rank(overrides: seq<Override>): nat -> real {
    (i: nat) => if i < |overrides| then Specificity(overrides[i]) as real else 0.0
  }

  function OverlayAt(overrides: seq<Override>, i: nat): Overlay {
    if i < |overrides| then overrides[i].rfq else Overlay(None, None, None, None, None, None, None, None)
  }

  function ApplyAll(overrides: seq<Override>, order: seq<nat>, cfg: RfqConfig): RfqConfig {
    if order == [] then cfg
    else Apply(OverlayAt(overrides, order[|order| - 1]), ApplyAll(overrides, order[..|order| - 1], cfg))
  }

  function Order(overrides: seq<Override>, q: Request): seq<nat> {
    Sort(MatchingUpTo(overrides, q, |overrides|), Rank(overrides))
  }

  function Resolved(pair: RfqConfig, overrides: seq<Override>, q: Request): RfqConfig {
    ApplyAll(overrides, Order(overrides, q), pair)
  }

  method ApplyLimits(o: Overlay, before: RfqConfig) returns (cfg: RfqConfig)
    ensures cfg == before.(enabled := o.enabled.GetOr(before.enabled), minQuantity := o.minQuantity.GetOr(before.minQuantity),
                           maxQuantity := o.maxQuantity.GetOr(before.maxQuantity))
  {
    cfg := before;
    if o.enabled.Some? { cfg := cfg.(enabled := o.enabled.value); }
    if o.minQuantity.Some? { cfg := cfg.(minQuantity := o.minQuantity.value); }
    if o.maxQuantity.Some? { cfg := cfg.(maxQuantity := o.maxQuantity.value); }
  }

  method ApplySpreads(o: Overlay, before: RfqConfig) returns (cfg: RfqConfig)
    ensures cfg == before.(bidSpread := o.bidSpread.GetOr(before.bidSpread), offerSpread := o.offerSpread.GetOr(before.offerSpread))
  {
    cfg := before;
    if o.bidSpread.Some? { cfg := cfg.(bidSpread := o.bidSpread.value); }
    if o.offerSpread.Some? { cfg := cfg.(offerSpread := o.offerSpread.value); }
  }

  /** The overlay written field by field over a configuration. */
  method ApplyOverlay(o: Overlay, before: RfqConfig) returns (cfg: RfqConfig)
    ensures cfg == Apply(o, before)
  {
    cfg := ApplyLimits(o, before);
    cfg := ApplySpreads(o, cfg);
    if o.noOverloadWidening.Some? { cfg := cfg.(noOverloadWidening := o.noOverloadWidening.value); }
    if o.noDepletionWidening.Some? { cfg := cfg.(noDepletionWidening := o.noDepletionWidening.value); }
    if o.quoteValidSecs.Some? { cfg := cfg.(quoteValidSecs := o.quoteValidSecs); }
  }

  /** A request without a venue takes the pair's configuration. */
  method ResolveRfqConfig(pair: RfqConfig, overrides: seq<Override>, market: string, venue: Option<string>, branch: Option<string>)
    returns (cfg: RfqConfig)
    ensures cfg == if venue.None? then pair else Resolved(pair, overrides, Request(market, venue.value, branch))
  {
    hide Apply, Matches, Sort, Rank;
    if venue.None? {
      return pair;
    }
    var q := Request(market, venue.value, branch);
    var matching: seq<nat> := [];
    for i := 0 to |overrides|
      invariant matching == MatchingUpTo(overrides, q, i)
    {
      if Matches(overrides[i], q) {
        matching := matching + [i];
      }
    }
    if matching == [] {
      NothingToSort(Rank(overrides));
      return pair;
    }
    matching := Sort(matching, Rank(overrides));
    assert matching == Order(overrides, q);
    cfg := pair;
    for i := 0 to |matching|
      invariant cfg == ApplyAll(overrides, matching[..i], pair)
    {
      assert matching[..i + 1][..i] == matching[..i];
      cfg := ApplyOverlay(OverlayAt(overrides, matching[i]), cfg);
    }
    assert matching[..|matching|] == matching;
  }

  lemma NothingToSort(rank: nat -> real)
    ensures Sort<nat>([], rank) == []
  {
  }

  // Order of application

  predicate Increasing(s: seq<nat>) {
    forall a, b :: 0 <= a < b < |s| ==> s[a] < s[b]
  }

  lemma {:induction false} MatchingFacts(overrides: seq<Override>, q: Request, n: nat)
    requires n <= |overrides|
    ensures forall i: nat :: i in MatchingUpTo(overrides, q, n) <==> i < n && Matches(overrides[i], q)
    ensures Increasing(MatchingUpTo(overrides, q, n))
  {
    hide Matches;
    if n > 0 {
      MatchingFacts(overrides, q, n - 1);
      var before := MatchingUpTo(overrides, q, n - 1);
      forall a | 0 <= a < |before| ensures before[a] < n - 1 {
        assert before[a] in before;
      }
    }
  }

  /** `i` is applied before `j`: less specific, or as specific and earlier in the file. */
  predicate Before(rank: nat -> real, i: nat, j: nat) {
    rank(i) < rank(j) || (rank(i) == rank(j) && i < j)
  }

  ghost predicate InOrder(s: seq<nat>, rank: nat -> real) {
    forall a, b :: 0 <= a < b < |s| ==> Before(rank, s[a], s[b])
  }

  lemma {:induction false} InsertInOrder(x: nat, s: seq<nat>, rank: nat -> real)
    requires InOrder(s, rank) && forall a :: 0 <= a < |s| ==> x < s[a]
    ensures InOrder(Insert(x, s, rank), rank)
  {
    if s != [] && rank(x) > rank(s[0]) {
      assert s == [s[0]] + s[1..];
      InsertInOrder(x, s[1..], rank);
      var r := Insert(x, s[1..], rank);
      forall b | 0 <= b < |r| ensures Before(rank, s[0], r[b]) {
        assert r[b] in multiset(r);
        assert r[b] == x || r[b] in s[1..];
      }
    } else if s != [] {
      forall b | 0 <= b < |s| ensures Before(rank, x, s[b]) {
        assert b > 0 ==> Before(rank, s[0], s[b]);
      }
    }
  }

  lemma {:induction false} SortInOrder(s: seq<nat>, rank: nat -> real)
    requires Increasing(s)
    ensures InOrder(Sort(s, rank), rank)
  {
    if s != [] {
      var tail := Sort(s[1..], rank);
      SortInOrder(s[1..], rank);
      SortKeepsMembers(s[1..], rank);
      forall a | 0 <= a < |tail| ensures s[0] < tail[a] {
        assert tail[a] in tail;
        var b :| 0 <= b < |s[1..]| && s[1..][b] == tail[a];
      }
      InsertInOrder(s[0], tail, rank);
    }
  }

  lemma OrderFacts(overrides: seq<Override>, q: Request)
    ensures InOrder(Order(overrides, q), Rank(overrides))
    ensures forall i: nat :: i in Order(overrides, q) <==> i < |overrides| && Matches(overrides[i], q)
  {
    hide Matches, Sort, InOrder, Rank;
    MatchingFacts(overrides, q, |overrides|);
    SortInOrder(MatchingUpTo(overrides, q, |overrides|), Rank(overrides));
    SortKeepsMembers(MatchingUpTo(overrides, q, |overrides|), Rank(overrides));
  }

  // What each field ends up as

  /** One field along the order of application: a set value replaces what came before. */
  function Chosen<T>(order: seq<nat>, setting: nat -> Option<T>, inherited: T): T {
    if order == [] then inherited
    else setting(order[|order| - 1]).GetOr(Chosen(order[..|order| - 1], setting, inherited))
  }

  /** Entry `i` is of the request's venue, is for its branch and market where it names any, and sets the field. */
  ghost predicate Sets<T>(overrides: seq<Override>, q: Request, get: Overlay -> Option<T>, i: nat) {
    && i < |overrides| && overrides[i].venue == q.venue
    && (overrides[i].branch == None || overrides[i].branch == q.branch)
    && (overrides[i].markets == None || exists m :: 0 <= m < |overrides[i].markets.value| && overrides[i].markets.value[m] == q.market)
    && get(overrides[i].rfq).Some?
  }

  /** Entry `b` names as many scopes as `a`, branch and markets each counting once, and stands later in the file, or it names more. */
  predicate Outranks(overrides: seq<Override>, b: nat, a: nat)
    requires a < |overrides| && b < |overrides|
  {
    var (branches, scopes) := (overrides[a].branch != None, overrides[a].markets != None);
    if branches && scopes then overrides[b].branch != None && overrides[b].markets != None && a < b
    else if branches || scopes then
      (overrides[b].branch != None && overrides[b].markets != None)
      || ((overrides[b].branch != None || overrides[b].markets != None) && a < b)
    else overrides[b].branch != None || overrides[b].markets != None || a < b
  }

  /** Entry `w` outranks every other matching entry that sets the field. */
  ghost predicate Wins<T>(overrides: seq<Override>, q: Request, get: Overlay -> Option<T>, w: nat) {
    && Sets(overrides, q, get, w)
    && forall i: nat :: Sets(overrides, q, get, i) && i != w ==> Outranks(overrides, w, i)
  }

  lemma SetsMatches<T>(overrides: seq<Override>, q: Request, get: Overlay -> Option<T>, i: nat)
    ensures Sets(overrides, q, get, i) <==> i < |overrides| && Matches(overrides[i], q) && get(overrides[i].rfq).Some?
  {
  }

  lemma OutranksIsBefore(overrides: seq<Override>, b: nat, a: nat)
    requires a < |overrides| && b < |overrides|
    ensures Outranks(overrides, b, a) <==> Before(Rank(overrides), a, b)
  {
  }

  ghost predicate ResolvesTo<T>(overrides: seq<Override>, q: Request, get: Overlay -> Option<T>, inherited: T, value: T) {
    if exists i: nat :: Sets(overrides, q, get, i)
    then exists w: nat :: Wins(overrides, q, get, w) && get(overrides[w].rfq) == Some(value)
    else value == inherited
  }

  lemma {:induction false} LastSetterDecides<T>(order: seq<nat>, setting: nat -> Option<T>, inherited: T) returns (last: int)
    ensures -1 <= last < |order|
    ensures forall a :: last < a < |order| ==> setting(order[a]).None?
    ensures if last < 0 then Chosen(order, setting, inherited) == inherited
            else setting(order[last]) == Some(Chosen(order, setting, inherited))
    decreases |order|
  {
    last := -1;
    if order != [] {
      last := |order| - 1;
      if setting(order[last]).None? {
        last := LastSetterDecides(order[..last], setting, inherited);
      }
    }
  }

  function Setting<T>(overrides: seq<Override>, get: Overlay -> Option<T>): nat -> Option<T> {
    (i: nat) => get(OverlayAt(overrides, i))
  }

  /** The maximal matching entry that sets the field decides it. */
  lemma ChosenIsMaximal<T>(overrides: seq<Override>, q: Request, get: Overlay -> Option<T>, inherited: T)
    ensures ResolvesTo(overrides, q, get, inherited, Chosen(Order(overrides, q), Setting(overrides, get), inherited))
  {
    hide Matches, Order, Chosen, Specificity, Rank, Before, Outranks, Sets;
    OrderFacts(overrides, q);
    var order := Order(overrides, q);
    var value := Chosen(order, Setting(overrides, get), inherited);
    var last := LastSetterDecides(order, Setting(overrides, get), inherited);
    forall i: nat | Sets(overrides, q, get, i)
      ensures last >= 0 && i < |overrides| && (i != order[last] ==> Before(Rank(overrides), i, order[last]))
    {
      SetsMatches(overrides, q, get, i);
      assert i in order;
      var a :| 0 <= a < |order| && order[a] == i;
      assert OverlayAt(overrides, i) == overrides[i].rfq;
      assert Setting(overrides, get)(i) == get(OverlayAt(overrides, i));
    }
    if last >= 0 {
      var w := order[last];
      assert w in order;
      assert OverlayAt(overrides, w) == overrides[w].rfq;
      assert Setting(overrides, get)(w) == get(OverlayAt(overrides, w));
      assert get(overrides[w].rfq) == Some(value);
      SetsMatches(overrides, q, get, w);
      forall i: nat | Sets(overrides, q, get, i) && i != w ensures Outranks(overrides, w, i) {
        OutranksIsBefore(overrides, w, i);
      }
      assert Wins(overrides, q, get, w);
    }
  }

  lemma {:induction false} FieldsAreChosen(overrides: seq<Override>, order: seq<nat>, pair: RfqConfig)
    ensures var cfg := ApplyAll(overrides, order, pair);
            && cfg.enabled == Chosen(order, Setting(overrides, (o: Overlay) => o.enabled), pair.enabled)
            && cfg.minQuantity == Chosen(order, Setting(overrides, (o: Overlay) => o.minQuantity), pair.minQuantity)
            && cfg.maxQuantity == Chosen(order, Setting(overrides, (o: Overlay) => o.maxQuantity), pair.maxQuantity)
            && cfg.bidSpread == Chosen(order, Setting(overrides, (o: Overlay) => o.bidSpread), pair.bidSpread)
            && cfg.offerSpread == Chosen(order, Setting(overrides, (o: Overlay) => o.offerSpread), pair.offerSpread)
    ensures var cfg := ApplyAll(overrides, order, pair);
            && cfg.noOverloadWidening == Chosen(order, Setting(overrides, (o: Overlay) => o.noOverloadWidening), pair.noOverloadWidening)
            && cfg.noDepletionWidening == Chosen(order, Setting(overrides, (o: Overlay) => o.noDepletionWidening), pair.noDepletionWidening)
            && cfg.quoteValidSecs == Chosen(order, Setting(overrides, ValidFor), pair.quoteValidSecs)
            && cfg.pairOnly == pair.pairOnly
  {
    if order != [] {
      FieldsAreChosen(overrides, order[..|order| - 1], pair);
      var top := order[|order| - 1];
      assert Setting(overrides, ValidFor)(top) == ValidFor(OverlayAt(overrides, top));
    }
  }

  /**
   For every list of overrides and every request, each overlay field's effective value comes from the
   matching entry that is maximal by (specificity, file position) among those setting it, else from the
   pair; everything outside the overlay, the closed sides included, stays as the pair has it.
   */
  lemma EveryFieldResolves(pair: RfqConfig, overrides: seq<Override>, q: Request)
    ensures var cfg := Resolved(pair, overrides, q);
            && ResolvesTo(overrides, q, (o: Overlay) => o.enabled, pair.enabled, cfg.enabled)
            && ResolvesTo(overrides, q, (o: Overlay) => o.minQuantity, pair.minQuantity, cfg.minQuantity)
            && ResolvesTo(overrides, q, (o: Overlay) => o.maxQuantity, pair.maxQuantity, cfg.maxQuantity)
            && ResolvesTo(overrides, q, (o: Overlay) => o.bidSpread, pair.bidSpread, cfg.bidSpread)
            && ResolvesTo(overrides, q, (o: Overlay) => o.offerSpread, pair.offerSpread, cfg.offerSpread)
            && ResolvesTo(overrides, q, (o: Overlay) => o.noOverloadWidening, pair.noOverloadWidening, cfg.noOverloadWidening)
            && ResolvesTo(overrides, q, (o: Overlay) => o.noDepletionWidening, pair.noDepletionWidening, cfg.noDepletionWidening)
            && ResolvesTo(overrides, q, ValidFor, pair.quoteValidSecs, cfg.quoteValidSecs)
            && cfg.pairOnly == pair.pairOnly
  {
    hide Order, ResolvesTo, ApplyAll, Chosen, Setting;
    FieldsAreChosen(overrides, Order(overrides, q), pair);
    ChosenIsMaximal(overrides, q, (o: Overlay) => o.enabled, pair.enabled);
    ChosenIsMaximal(overrides, q, (o: Overlay) => o.minQuantity, pair.minQuantity);
    ChosenIsMaximal(overrides, q, (o: Overlay) => o.maxQuantity, pair.maxQuantity);
    ChosenIsMaximal(overrides, q, (o: Overlay) => o.bidSpread, pair.bidSpread);
    ChosenIsMaximal(overrides, q, (o: Overlay) => o.offerSpread, pair.offerSpread);
    ChosenIsMaximal(overrides, q, (o: Overlay) => o.noOverloadWidening, pair.noOverloadWidening);
    ChosenIsMaximal(overrides, q, (o: Overlay) => o.noDepletionWidening, pair.noDepletionWidening);
    ChosenIsMaximal(overrides, q, ValidFor, pair.quoteValidSecs);
  }

  /** The optional quote lifetime an overlay sets: setting it always leaves one set. */
  function ValidFor(o: Overlay): Option<Option<nat>> {
    if o.quoteValidSecs.Some? then Some(o.quoteValidSecs) else None
  }
}
