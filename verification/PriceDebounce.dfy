/** The two-strike teardown and restore of a market's grid when its price feed fails and returns. */
module PriceDebounce {
  import opened Wrappers
  import opened GridVisit

  const U32_MAX: nat := 0xFFFF_FFFF

  function Bump(streak: nat): nat {
    if streak < U32_MAX then streak + 1 else streak
  }

  /** What the manager keeps about one market's price; an absent streak is zero. */
  datatype PriceState = PriceState(
    priceless: bool, fails: nat, restores: nat, force: bool, anchors: Option<Anchors>)

  const FRESH := PriceState(false, 0, 0, false, None)

  /** A market without a price: its anchors go with its orders. */
  function Priceless(s: PriceState): PriceState {
    s.(priceless := true, anchors := None)
  }

  function OnFailure(s: PriceState): PriceState {
    var t := s.(restores := 0, fails := Bump(s.fails));
    if t.fails >= 2 || t.priceless then Priceless(t) else t
  }

  function OnPrice(s: PriceState): PriceState {
    var t := s.(fails := 0);
    if !t.priceless then t
    else if Bump(t.restores) < 2 then t.(restores := Bump(t.restores))
    else t.(restores := 0, priceless := false, force := true)
  }

  class PriceWatch {
    var priceless: set<string>
    var failStreak: map<string, nat>
    var restoreStreak: map<string, nat>
    var forceRefresh: set<string>
    var gridAnchors: map<string, Anchors>

    ghost function At(market: string): PriceState
      reads this
    {
      PriceState(market in priceless, Get(failStreak, market).GetOr(0), Get(restoreStreak, market).GetOr(0),
                 market in forceRefresh, Get(gridAnchors, market))
    }

    constructor ()
      ensures forall m :: At(m) == FRESH
    {
      priceless, failStreak, restoreStreak, forceRefresh, gridAnchors := {}, map[], map[], {}, map[];
    }

    /** `got` is a finite positive price, or nothing for an error or any other value. */
    method FetchGridPrice(market: string, got: Option<Price>) returns (price: Option<Price>)
      modifies this
      ensures At(market) == if got.Some? then OnPrice(old(At(market))) else OnFailure(old(At(market)))
      ensures price == if got.Some? && !At(market).priceless then got else None
      ensures forall m :: m != market ==> At(m) == old(At(m))
    {
      if got.Some? {
        price := AcceptPrice(market, got.value);
        return;
      }
      restoreStreak := restoreStreak - {market};
      var streak := Bump(if market in failStreak then failStreak[market] else 0);
      failStreak := failStreak[market := streak];
      if streak >= 2 || market in priceless {
        priceless := priceless + {market};
        gridAnchors := gridAnchors - {market};
      }
      price := None;
    }

    method AcceptPrice(market: string, p: Price) returns (price: Option<Price>)
      modifies this
      ensures At(market) == OnPrice(old(At(market)))
      ensures price == if At(market).priceless then None else Some(p)
      ensures forall m :: m != market ==> At(m) == old(At(m))
    {
      failStreak := failStreak - {market};
      if market in priceless {
        var streak := Bump(if market in restoreStreak then restoreStreak[market] else 0);
        restoreStreak := restoreStreak[market := streak];
        if streak < 2 {
          return None;
        }
        restoreStreak := restoreStreak - {market};
        priceless := priceless - {market};
        forceRefresh := forceRefresh + {market};
      }
      return Some(p);
    }

    /** A plan consumes a pending restore and stamps the anchors it leaves. */
    method PlanVisit(market: string, stamped: Anchors) returns (restore: bool)
      modifies this
      ensures restore == old(At(market)).force
      ensures At(market) == old(At(market)).(force := false, anchors := Some(stamped))
      ensures forall m :: m != market ==> At(m) == old(At(m))
    {
      restore := market in forceRefresh;
      forceRefresh := forceRefresh - {market};
      gridAnchors := gridAnchors[market := stamped];
    }
  }

  // Traces of one market

  datatype Event = Good | Bad | Planned(stamped: Anchors)

  function Step(s: PriceState, e: Event): PriceState {
    match e
    case Good => OnPrice(s)
    case Bad => OnFailure(s)
    case Planned(a) => s.(force := false, anchors := Some(a))
  }

  function After(trace: seq<Event>): PriceState {
    if trace == [] then FRESH else Step(After(trace[..|trace| - 1]), trace[|trace| - 1])
  }

  /** A market is planned only on a visit whose price was let through. */
  predicate Legal(trace: seq<Event>) {
    trace == [] ||
    (Legal(trace[..|trace| - 1]) && (trace[|trace| - 1].Planned? ==> !After(trace[..|trace| - 1]).priceless))
  }

  /** The outcomes of the fetches, in order. */
  function Fetches(trace: seq<Event>): seq<bool> {
    if trace == [] then []
    else
      var before := Fetches(trace[..|trace| - 1]);
      match trace[|trace| - 1]
      case Good => before + [true]
      case Bad => before + [false]
      case Planned(_) => before
  }

  ghost predicate Twice(f: seq<bool>, i: nat, outcome: bool) {
    i + 1 < |f| && f[i] == outcome && f[i + 1] == outcome
  }

  /** Two failures in a row, and no two successes in a row since. */
  ghost predicate TornDown(f: seq<bool>) {
    exists i: nat :: Twice(f, i, false) && forall j: nat :: j > i ==> !Twice(f, j, true)
  }

  function Last(f: seq<bool>): Option<bool> {
    if f == [] then None else Some(f[|f| - 1])
  }

  lemma TornDownGrows(f: seq<bool>, b: bool)
    ensures TornDown(f + [b]) <==> if b then TornDown(f) && Last(f) != Some(true) else TornDown(f) || Last(f) == Some(false)
  {
    var g := f + [b];
    forall i: nat, outcome ensures Twice(g, i, outcome) <==>
                                     Twice(f, i, outcome) || (i + 1 == |f| && f[i] == outcome && b == outcome)
    {
    }
    if TornDown(f) && (b ==> Last(f) != Some(true)) {
      var i: nat :| Twice(f, i, false) && forall j: nat :: j > i ==> !Twice(f, j, true);
      assert Twice(g, i, false);
    }
    if !b && Last(f) == Some(false) {
      assert Twice(g, |f| - 1, false);
    }
    assert b && Last(f) == Some(true) ==> Twice(g, |f| - 1, true);
    assert forall j: nat :: Twice(f, j, true) ==> Twice(g, j, true);
  }

  /** The state a market's fetch outcomes lead to. */
  ghost predicate Debounced(s: PriceState, f: seq<bool>) {
    && (s.priceless <==> TornDown(f))
    && s.restores == (if s.priceless && Last(f) == Some(true) then 1 else 0)
    && (!s.priceless ==> s.fails == if Last(f) == Some(false) then 1 else 0)
  }

  /**
   A market is without quotes exactly while its last repeated outcome was a failure: it is torn down at the
   second consecutive failure and resumes at the second consecutive success, over any trace.
   */
  lemma {:induction false} PricelessExactly(trace: seq<Event>)
    ensures Debounced(After(trace), Fetches(trace))
  {
    if trace != [] {
      var before := trace[..|trace| - 1];
      PricelessExactly(before);
      if !trace[|trace| - 1].Planned? {
        TornDownGrows(Fetches(before), trace[|trace| - 1].Good?);
      }
    }
  }

  /** A torn-down market has no anchor on either side. */
  lemma {:induction false} TeardownClearsAnchors(trace: seq<Event>)
    requires Legal(trace)
    ensures After(trace).priceless ==> After(trace).anchors == None
  {
    if trace != [] {
      TeardownClearsAnchors(trace[..|trace| - 1]);
    }
  }

  /** The anchors of the latest plan, unless the market was torn down since. */
  function LatestPlan(trace: seq<Event>): Option<Anchors> {
    if trace == [] then None
    else
      var before := LatestPlan(trace[..|trace| - 1]);
      match trace[|trace| - 1]
      case Planned(a) => Some(a)
      case _ => if After(trace).priceless then None else before
  }

  /** A single failed fetch forgets nothing: the anchors are those of the latest plan until the market is torn down. */
  lemma {:induction false} AnchorsOutliveOneFailure(trace: seq<Event>)
    requires Legal(trace)
    ensures After(trace).anchors == LatestPlan(trace)
  {
    if trace != [] {
      AnchorsOutliveOneFailure(trace[..|trace| - 1]);
      TeardownClearsAnchors(trace);
    }
  }

  ghost predicate Resumed(trace: seq<Event>, i: nat) {
    i < |trace| && After(trace[..i]).priceless && !After(trace[..i + 1]).priceless
  }

  ghost predicate ResumedSincePlan(trace: seq<Event>) {
    exists i: nat :: Resumed(trace, i) && forall j :: i < j < |trace| ==> !trace[j].Planned?
  }

  lemma ResumedBefore(trace: seq<Event>, i: nat)
    requires trace != [] && i < |trace| - 1
    ensures Resumed(trace, i) <==> Resumed(trace[..|trace| - 1], i)
  {
    var before := trace[..|trace| - 1];
    assert trace[..i] == before[..i] && trace[..i + 1] == before[..i + 1];
  }

  /** A step keeps a standing resume unless it plans, and adds one exactly when it resumes. */
  lemma ResumedSinceStep(trace: seq<Event>)
    requires trace != []
    ensures var n := |trace| - 1;
            ResumedSincePlan(trace) <==> Resumed(trace, n) || (ResumedSincePlan(trace[..n]) && !trace[n].Planned?)
  {
    hide Resumed;
    var n := |trace| - 1;
    var before := trace[..n];
    if ResumedSincePlan(before) && !trace[n].Planned? {
      var i: nat :| Resumed(before, i) && forall j :: i < j < n ==> !before[j].Planned?;
      ResumedInside(before, i);
      ResumedBefore(trace, i);
      assert forall j :: i < j < |trace| ==> !trace[j].Planned?;
    }
    if ResumedSincePlan(trace) && !Resumed(trace, n) {
      var i: nat :| Resumed(trace, i) && forall j :: i < j < |trace| ==> !trace[j].Planned?;
      ResumedInside(trace, i);
      ResumedBefore(trace, i);
      assert forall j :: i < j < n ==> !before[j].Planned?;
    }
  }

  lemma ResumedInside(trace: seq<Event>, i: nat)
    requires Resumed(trace, i)
    ensures i < |trace|
  {
  }

  /** A plan is forced exactly when the market resumed since the plan before it, so each resume forces one plan. */
  lemma {:induction false} ForcedExactlyAfterResume(trace: seq<Event>)
    requires Legal(trace)
    ensures After(trace).force <==> ResumedSincePlan(trace)
  {
    if trace != [] {
      hide ResumedSincePlan;
      var n := |trace| - 1;
      ForcedExactlyAfterResume(trace[..n]);
      ResumedSinceStep(trace);
      assert trace[..n + 1] == trace;
    } else {
      assert !ResumedSincePlan(trace);
    }
  }
}
