/** The rotation of a grid cycle over the enabled markets, cut short by a deadline and resumed next cycle. */
module GridCycle {

  /** The market `k` places after `start`, wrapping round. */
  function Index(start: nat, k: nat, total: nat): nat {
    if start + k < total then start + k else start + k - total
  }

  function Start(resumeFrom: nat, total: nat): nat {
    if resumeFrom < total then resumeFrom else 0
  }

  predicate PastSoftDeadline(visited: nat, late: nat -> bool) {
    visited > 0 && late(visited)
  }

  /** How many markets a cycle visits from its `i`-th on; `late(i)` is the clock against the deadline before visit `i`. */
  function VisitsFrom(i: nat, total: nat, stopping: nat -> bool, late: nat -> bool): (v: nat)
    requires i <= total
    ensures i <= v <= total
    decreases total - i
  {
    if i == total || stopping(i) || PastSoftDeadline(i, late) then i else VisitsFrom(i + 1, total, stopping, late)
  }

  function Visits(total: nat, stopping: nat -> bool, late: nat -> bool): nat {
    VisitsFrom(0, total, stopping, late)
  }

  function VisitOrder(resumeFrom: nat, visits: nat, total: nat): seq<nat>
    requires visits <= total
  {
    seq(visits, k requires 0 <= k < visits => Index(Start(resumeFrom, total), k, total))
  }

  function NextResume(resumeFrom: nat, total: nat, stopping: nat -> bool, late: nat -> bool): nat {
    var v := Visits(total, stopping, late);
    if v < total && !stopping(v) then Index(Start(resumeFrom, total), v, total) else 0
  }

  class Rotation {
    var resumeFrom: nat

    constructor ()
      ensures resumeFrom == 0
    {
      resumeFrom := 0;
    }

    method UpdateCycle(total: nat, stopping: nat -> bool, late: nat -> bool) returns (visited: seq<nat>, deferred: nat)
      modifies this
      ensures visited == VisitOrder(old(resumeFrom), Visits(total, stopping, late), total)
      ensures resumeFrom == NextResume(old(resumeFrom), total, stopping, late)
      ensures |visited| + deferred == total
      ensures forall i :: 0 <= i < |visited| ==>
                visited[i] == if i > 0 then if visited[i - 1] + 1 == total then 0 else visited[i - 1] + 1
                              else if old(resumeFrom) < total then old(resumeFrom) else 0
    {
      var start := Start(resumeFrom, total);
      resumeFrom := 0;
      visited, deferred := [], 0;
      while |visited| < total
        invariant |visited| <= total && deferred == 0 && resumeFrom == 0
        invariant visited == VisitOrder(old(resumeFrom), |visited|, total)
        invariant VisitsFrom(|visited|, total, stopping, late) == Visits(total, stopping, late)
      {
        if stopping(|visited|) {
          deferred := total - |visited|;
          return;
        }
        if PastSoftDeadline(|visited|, late) {
          resumeFrom := Index(start, |visited|, total);
          deferred := total - |visited|;
          return;
        }
        visited := visited + [Index(start, |visited|, total)];
      }
    }
  }

  /** A cycle that its deadline cut is resumed at the first market it deferred; one that finished, or saw the shutdown, is not. */
  lemma ResumesWhereCut(resumeFrom: nat, total: nat, stopping: nat -> bool, late: nat -> bool, again: nat -> bool, lateAgain: nat -> bool)
    ensures var v := Visits(total, stopping, late); var from := NextResume(resumeFrom, total, stopping, late);
            var next := VisitOrder(from, Visits(total, again, lateAgain), total);
            && (v < total && !stopping(v) && next != [] ==>
                  VisitOrder(resumeFrom, v, total) + [next[0]] == VisitOrder(resumeFrom, v + 1, total))
            && (v == total || stopping(v) ==> from == 0)
            && (v < total ==> stopping(v) || (v > 0 && late(v)))
            && forall i: nat :: i < v ==> !stopping(i) && (i > 0 ==> !late(i))
  {
    VisitsStop(0, total, stopping, late);
  }

  lemma {:induction false} VisitsStop(i: nat, total: nat, stopping: nat -> bool, late: nat -> bool)
    requires i <= total
    ensures var v := VisitsFrom(i, total, stopping, late);
            && (v < total ==> stopping(v) || (v > 0 && late(v)))
            && forall j: nat :: i <= j < v ==> !stopping(j) && (j > 0 ==> !late(j))
    decreases total - i
  {
    if i < total && !stopping(i) && !PastSoftDeadline(i, late) {
      VisitsStop(i + 1, total, stopping, late);
    }
  }

  const NEVER: nat -> bool := (i: nat) => false

  /** Some cycle of the run visits `market`; the adversary picks each cycle's lateness. */
  predicate VisitedWithin(resumeFrom: nat, total: nat, cycles: seq<nat -> bool>, market: nat)
    decreases |cycles|
  {
    cycles != [] &&
    (market in VisitOrder(resumeFrom, Visits(total, NEVER, cycles[0]), total)
     || VisitedWithin(NextResume(resumeFrom, total, NEVER, cycles[0]), total, cycles[1..], market))
  }

  function DistanceTo(start: nat, market: nat, total: nat): int {
    if market >= start then market - start else market - start + total
  }

  lemma OrderReaches(resumeFrom: nat, visits: nat, total: nat, market: nat)
    requires visits <= total && market < total
    ensures market in VisitOrder(resumeFrom, visits, total) <==> DistanceTo(Start(resumeFrom, total), market, total) < visits
    ensures |VisitOrder(resumeFrom, visits, total)| == visits
  {
    var order := VisitOrder(resumeFrom, visits, total);
    var d := DistanceTo(Start(resumeFrom, total), market, total);
    if d < visits {
      assert order[d] == market;
    }
    if market in order {
      var k :| 0 <= k < |order| && order[k] == market;
    }
  }

  lemma CycleProgresses(total: nat, late: nat -> bool)
    requires total > 0
    ensures Visits(total, NEVER, late) >= 1
  {
  }

  lemma {:induction false} ReachedByDistance(resumeFrom: nat, total: nat, cycles: seq<nat -> bool>, market: nat)
    requires market < total
    requires DistanceTo(Start(resumeFrom, total), market, total) < |cycles|
    ensures VisitedWithin(resumeFrom, total, cycles, market)
    decreases |cycles|
  {
    var v := Visits(total, NEVER, cycles[0]);
    CycleProgresses(total, cycles[0]);
    OrderReaches(resumeFrom, v, total, market);
    if DistanceTo(Start(resumeFrom, total), market, total) >= v {
      ReachedByDistance(NextResume(resumeFrom, total, NEVER, cycles[0]), total, cycles[1..], market);
    }
  }

  /**
   Fairness: without shutdown, however late the deadline makes each cycle, every cycle visits at least one
   market, and any run of as many cycles as there are markets visits every market, wherever it resumes from.
   */
  lemma EveryMarketVisited(resumeFrom: nat, total: nat, cycles: seq<nat -> bool>, market: nat)
    requires market < total && |cycles| >= total
    ensures VisitedWithin(resumeFrom, total, cycles, market)
    ensures forall c :: 0 <= c < |cycles| ==> 1 <= Visits(total, NEVER, cycles[c]) <= total
  {
    ReachedByDistance(resumeFrom, total, cycles, market);
    forall c | 0 <= c < |cycles| ensures 1 <= Visits(total, NEVER, cycles[c]) {
      CycleProgresses(total, cycles[c]);
    }
  }

  /** One cycle fewer is not enough when the deadline always cuts after the first visit. */
  lemma FewerCyclesMiss(total: nat)
    requires total > 1
    ensures !VisitedWithin(0, total, seq(total - 1, k => (i: nat) => true), total - 1)
  {
    MissedFor(0, total, total - 1);
  }

  lemma {:induction false} MissedFor(from: nat, total: nat, n: nat)
    requires from + n < total
    ensures !VisitedWithin(from, total, seq(n, k => (i: nat) => true), total - 1)
    decreases n
  {
    if n > 0 {
      var cycles: seq<nat -> bool> := seq(n, k => (i: nat) => true);
      assert cycles[1..] == seq(n - 1, k => (i: nat) => true);
      assert !NEVER(0) && !NEVER(1) && cycles[0](1);
      assert VisitsFrom(1, total, NEVER, cycles[0]) == 1;
      OrderReaches(from, 1, total, total - 1);
      MissedFor(from + 1, total, n - 1);
    }
  }
}
