/** The queue of submits that errored, over runs: its order, its bound, and adoption at most once. */
module FailedSubmits {
  import opened Wrappers
  import opened OrderTracking
  import opened TrackerAccounting

  /** How often a payload is queued. */
  ghost function Queued(q: seq<Noted>, s: FailedSubmit): nat {
    if q == [] then 0 else (if q[0].submit == s then 1 else 0) + Queued(q[1..], s)
  }

  lemma {:induction false} QueuedConcat(a: seq<Noted>, b: seq<Noted>, s: FailedSubmit)
    ensures Queued(a + b, s) == Queued(a, s) + Queued(b, s)
  {
    if a == [] {
      assert a + b == b;
    } else {
      QueuedConcat(a[1..], b, s);
      assert (a + b)[1..] == a[1..] + b;
    }
  }

  lemma TakeOut(q: seq<Noted>, i: nat, s: FailedSubmit)
    requires i < |q|
    ensures Queued(q, s) == Queued(q[..i] + q[i + 1..], s) + if q[i].submit == s then 1 else 0
  {
    assert q == q[..i] + q[i..];
    QueuedConcat(q[..i], q[i..], s);
    QueuedConcat(q[..i], q[i + 1..], s);
  }

  ghost predicate TimeOrdered(q: seq<Noted>, now: nat) {
    && (forall i, j :: 0 <= i < j < |q| ==> q[i].at <= q[j].at)
    && (forall i :: 0 <= i < |q| ==> q[i].at <= now)
  }

  /** Pruning keeps exactly the submits still adoptable. */
  lemma {:induction false} PruneMembers(q: seq<Noted>, now: nat)
    ensures forall n :: n in Prune(q, now) <==> n in q && Age(n.at, now) < FAILED_SUBMIT_ADOPT
    ensures |Prune(q, now)| <= |q|
  {
    if q != [] {
      PruneMembers(q[1..], now);
      assert q == [q[0]] + q[1..];
    }
  }

  lemma {:induction false} PruneKeepsOrder(q: seq<Noted>, now: nat, last: nat)
    requires TimeOrdered(q, last)
    ensures TimeOrdered(Prune(q, now), last)
  {
    if q != [] {
      PruneKeepsOrder(q[1..], now, last);
      PruneMembers(q[1..], now);
      var rest := Prune(q[1..], now);
      forall n | n in rest ensures q[0].at <= n.at {
        assert n in q[1..];
      }
      AddedInFront(q[0], rest, last);
    }
  }

  lemma AddedInFront(n: Noted, q: seq<Noted>, now: nat)
    requires TimeOrdered(q, now) && n.at <= now && forall other :: other in q ==> n.at <= other.at
    ensures TimeOrdered([n] + q, now)
  {
  }

  lemma {:induction false} PruneCounts(q: seq<Noted>, now: nat, s: FailedSubmit)
    ensures Queued(Prune(q, now), s) <= Queued(q, s)
  {
    if q != [] {
      PruneCounts(q[1..], now, s);
      if Age(q[0].at, now) < FAILED_SUBMIT_ADOPT {
        assert Prune(q, now)[1..] == Prune(q[1..], now);
      } else {
        assert Prune(q, now) == Prune(q[1..], now);
      }
    }
  }

  lemma DropOldestCounts(q: seq<Noted>, s: FailedSubmit)
    ensures Queued(DropOldest(q), s) <= Queued(q, s)
  {
    if |q| >= FAILED_SUBMIT_MAX {
      var cut := |q| - FAILED_SUBMIT_MAX + 1;
      assert q == q[..cut] + q[cut..];
      QueuedConcat(q[..cut], q[cut..], s);
    }
  }

  ghost predicate QueueKept(r: Run) {
    && TimeOrdered(r.t.failed, r.now)
    && |r.t.failed| <= FAILED_SUBMIT_MAX
    && forall s :: r.adopted[s] + Queued(r.t.failed, s) <= r.noted[s]
  }

  lemma NotedKeepsOrder(q: seq<Noted>, last: nat, n: Noted)
    requires TimeOrdered(q, last) && last <= n.at && |q| <= FAILED_SUBMIT_MAX
    ensures TimeOrdered(DropOldest(q) + [n], n.at) && |DropOldest(q) + [n]| <= FAILED_SUBMIT_MAX
  {
  }

  lemma NoteKeepsQueue(cfg: Config, r: Run, submit: FailedSubmit, now: nat)
    requires QueueKept(r) && r.now <= now
    ensures QueueKept(Next(cfg, r, Note(submit), now))
  {
    hide Prune, DropOldest;
    var pruned := Prune(r.t.failed, now);
    PruneKeepsOrder(r.t.failed, now, r.now);
    PruneMembers(r.t.failed, now);
    NotedKeepsOrder(pruned, r.now, Noted(now, submit));
    var r' := Next(cfg, r, Note(submit), now);
    assert r'.t.failed == DropOldest(pruned) + [Noted(now, submit)];
    forall s ensures r'.adopted[s] + Queued(r'.t.failed, s) <= r'.noted[s] {
      PruneCounts(r.t.failed, now, s);
      DropOldestCounts(pruned, s);
      QueuedConcat(DropOldest(pruned), [Noted(now, submit)], s);
    }
  }

  /** What an adoption does to the queue and to the adoptions counted. */
  lemma AdoptNext(cfg: Config, r: Run, o: ServerOrder, now: nat)
    ensures var pruned := Prune(r.t.failed, now); var pos := Adoptable(r.t, o, now); var r' := Next(cfg, r, Adopt(o), now);
            && r'.now == now && r'.noted == r.noted
            && (pos.None? ==> r'.t.failed == pruned && r'.adopted == r.adopted)
            && (pos.Some? ==>
                  && pos.value < |pruned|
                  && r'.t.failed == pruned[..pos.value] + pruned[pos.value + 1..]
                  && r'.adopted == r.adopted + multiset{pruned[pos.value].submit})
  {
    hide Prune;
  }

  lemma AdoptKeepsQueue(cfg: Config, r: Run, o: ServerOrder, now: nat)
    requires QueueKept(r) && r.now <= now
    ensures QueueKept(Next(cfg, r, Adopt(o), now))
  {
    hide Prune, Next, Queued, Adoptable;
    var pruned := Prune(r.t.failed, now);
    PruneKeepsOrder(r.t.failed, now, r.now);
    PruneMembers(r.t.failed, now);
    AdoptNext(cfg, r, o, now);
    var pos := Adoptable(r.t, o, now);
    var r' := Next(cfg, r, Adopt(o), now);
    if pos.Some? {
      AfterTakingOut(pruned, pos.value, now);
    }
    forall s ensures r'.adopted[s] + Queued(r'.t.failed, s) <= r'.noted[s] {
      PruneCounts(r.t.failed, now, s);
      if pos.Some? {
        TakeOut(pruned, pos.value, s);
      }
    }
  }

  lemma AfterTakingOut(q: seq<Noted>, i: nat, now: nat)
    requires i < |q| && TimeOrdered(q, now)
    ensures TimeOrdered(q[..i] + q[i + 1..], now)
  {
  }

  lemma OtherEventsLeaveQueue(cfg: Config, r: Run, e: Event, now: nat)
    requires QueueKept(r) && r.now <= now && !e.Note? && !e.Adopt?
    ensures QueueKept(Next(cfg, r, e, now))
  {
    hide Prune, Queued;
    assert Next(cfg, r, e, now).t.failed == r.t.failed;
  }

  /** The clock never goes back, whatever the events. */
  predicate InTimeOrder(history: seq<Timed>) {
    forall i, j :: 0 <= i < j < |history| ==> history[i].now <= history[j].now
  }

  lemma LastIsNow(cfg: Config, history: seq<Timed>)
    ensures After(cfg, history).now == if history == [] then 0 else history[|history| - 1].now
  {
  }

  /**
   In every run the queue stays in time order and within its bound, and a payload is adopted at most
   once per note: what was adopted together with what is still queued never exceeds what was noted.
   */
  lemma {:induction false} AdoptedAtMostOnce(cfg: Config, history: seq<Timed>)
    requires InTimeOrder(history)
    ensures QueueKept(After(cfg, history))
  {
    if history != [] {
      LastIsNow(cfg, history[..|history| - 1]);
      hide Next, QueueKept;
      var r := After(cfg, history[..|history| - 1]);
      var last := history[|history| - 1];
      AdoptedAtMostOnce(cfg, history[..|history| - 1]);
      match last.event {
        case Note(s) => NoteKeepsQueue(cfg, r, s, last.now);
        case Adopt(o) => AdoptKeepsQueue(cfg, r, o, last.now);
        case _ => OtherEventsLeaveQueue(cfg, r, last.event, last.now);
      }
    }
  }

  /** Some submit noted within the last hour has the order's nonce, market, signature and signed data. */
  ghost predicate BookedFromKept(q: seq<Noted>, o: ServerOrder, now: nat) {
    exists n :: n in q && now - n.at < 3_600_000
                && n.submit.nonce == o.nonce && n.submit.market == o.market
                && Some(n.submit.signature) == o.signature && n.submit.signedData == o.signedData
  }

  /** `mine` is `o` as we submitted it: ours, active, for the quantity we signed, with nothing settled or pending. */
  predicate OursAsSubmitted(mine: TrackedOrder, o: ServerOrder, q: seq<Noted>) {
    && mine.settled == mine.pending == 0.0 && mine.byAgent && mine.active
    && mine.nonce == o.nonce && mine.market == o.market
    && o.signature == Some(mine.signature) && mine.signedData == o.signedData
    && exists n :: n in q && n.submit.nonce == o.nonce && n.submit.signedData == o.signedData
                   && mine.quantity == (if n.submit.quantity.Some? then n.submit.quantity.value else 0.0)
  }

  /**
   An order is adopted exactly when it is untracked and was booked from a kept submit; it then starts with the
   quantity submitted and nothing settled or pending, as one of our own orders. Nothing else becomes or stops
   being tracked.
   */
  lemma AdoptionExact(t: Tracker, o: ServerOrder, now: nat)
    ensures var t' := AdoptFailedSubmit(t, o, now);
            && (Adoptable(t, o, now).Some? <==> o.orderId !in t.orders && BookedFromKept(t.failed, o, now))
            && (Adoptable(t, o, now).None? ==> t'.orders == t.orders)
            && (Adoptable(t, o, now).Some? ==>
                  && t'.orders.Keys == t.orders.Keys + {o.orderId}
                  && (forall id :: id in t.orders ==> t'.orders[id] == t.orders[id])
                  && OursAsSubmitted(t'.orders[o.orderId], o, t.failed))
  {
    AdoptableExactly(t, o, now);
    if Adoptable(t, o, now).Some? {
      AdoptedAsSubmitted(t, o, now);
    }
    hide Adoptable, AdoptFailedSubmit, BookedFromKept, OursAsSubmitted;
  }

  lemma AdoptableExactly(t: Tracker, o: ServerOrder, now: nat)
    ensures Adoptable(t, o, now).Some? <==> o.orderId !in t.orders && BookedFromKept(t.failed, o, now)
    ensures Adoptable(t, o, now).None? ==> AdoptFailedSubmit(t, o, now).orders == t.orders
  {
    PruneMembers(t.failed, now);
    hide Prune, FirstMatch;
    var kept := Prune(t.failed, now);
    if BookedFromKept(t.failed, o, now) {
      var n :| n in t.failed && now - n.at < 3_600_000 && n.submit.nonce == o.nonce && n.submit.market == o.market
               && Some(n.submit.signature) == o.signature && n.submit.signedData == o.signedData;
      assert n in kept;
    }
    var pos := FirstMatch(kept, o);
    if pos.Some? {
      assert kept[pos.value] in kept;
    }
  }

  lemma AdoptedAsSubmitted(t: Tracker, o: ServerOrder, now: nat)
    requires Adoptable(t, o, now).Some?
    ensures var t' := AdoptFailedSubmit(t, o, now);
            && t'.orders.Keys == t.orders.Keys + {o.orderId}
            && (forall id :: id in t.orders ==> t'.orders[id] == t.orders[id])
            && OursAsSubmitted(t'.orders[o.orderId], o, t.failed)
  {
    PruneMembers(t.failed, now);
    hide Prune, FirstMatch;
    var kept := Prune(t.failed, now);
    var n := kept[Adoptable(t, o, now).value];
    assert n in kept && n in t.failed;
  }

  lemma {:induction false} AdoptListedJoins(t: Tracker, a: seq<ServerOrder>, b: seq<ServerOrder>, now: nat)
    ensures AdoptListed(t, a + b, now) == AdoptListed(AdoptListed(t, a, now), b, now)
    ensures AdoptedCount(t, a + b, now) == AdoptedCount(t, a, now) + AdoptedCount(AdoptListed(t, a, now), b, now)
    decreases |a|
  {
    hide AdoptFailedSubmit, Adoptable;
    if a == [] {
      assert a + b == b;
    } else {
      assert (a + b)[0] == a[0] && (a + b)[1..] == a[1..] + b;
      AdoptListedJoins(AdoptFailedSubmit(t, a[0], now), a[1..], b, now);
    }
  }

  /** A listing is adopted order by order, each as it stands when its turn comes; what is counted is what came to be tracked. */
  lemma {:induction false} AdoptListedIsEach(t: Tracker, listed: seq<ServerOrder>, now: nat, i: nat)
    requires i < |listed|
    ensures var before, after := AdoptListed(t, listed[..i], now), AdoptListed(t, listed[..i + 1], now);
            && AdoptListed(t, [], now) == t && after == AdoptFailedSubmit(before, listed[i], now)
            && AdoptedCount(t, listed[..i + 1], now) - AdoptedCount(t, listed[..i], now)
               == if listed[i].orderId in after.orders && listed[i].orderId !in before.orders then 1 else 0
  {
    assert listed[..i + 1] == listed[..i] + [listed[i]];
    AdoptListedJoins(t, listed[..i], [listed[i]], now);
    var before := AdoptListed(t, listed[..i], now);
    assert [listed[i]][1..] == [];
    AdoptionExact(before, listed[i], now);
    hide Prune, FirstMatch;
  }

  // How long a noted submit can be adopted

  /** `n` is queued with at most `newer` submits behind it. */
  ghost predicate Within(q: seq<Noted>, n: Noted, newer: nat) {
    exists i :: 0 <= i < |q| && q[i] == n && |q| - 1 - i <= newer
  }

  lemma {:induction false} PruneKeepsPlace(q: seq<Noted>, now: nat, n: Noted, newer: nat)
    requires Within(q, n, newer) && now - n.at < 3_600_000
    ensures Within(Prune(q, now), n, newer)
  {
    var i :| 0 <= i < |q| && q[i] == n && |q| - 1 - i <= newer;
    PruneMembers(q[1..], now);
    var rest := Prune(q[1..], now);
    if i == 0 {
      assert Prune(q, now) == [n] + rest;
      assert Prune(q, now)[0] == n;
    } else {
      assert q[1..][i - 1] == n;
      PruneKeepsPlace(q[1..], now, n, newer);
      var j :| 0 <= j < |rest| && rest[j] == n && |rest| - 1 - j <= newer;
      if Prune(q, now) != rest {
        assert Prune(q, now) == [q[0]] + rest && Prune(q, now)[j + 1] == n;
      }
    }
  }

  lemma NoteKeepsPlace(q: seq<Noted>, n: Noted, newer: nat, added: Noted)
    requires Within(q, n, newer) && newer < 255
    ensures Within(DropOldest(q) + [added], n, newer + 1)
  {
    var i :| 0 <= i < |q| && q[i] == n && |q| - 1 - i <= newer;
    var cut := |q| - |DropOldest(q)|;
    var after := DropOldest(q) + [added];
    assert after[i - cut] == n;
  }

  lemma TakeOutKeepsPlace(q: seq<Noted>, pos: nat, n: Noted, newer: nat)
    requires pos < |q| && q[pos].submit != n.submit && Within(q, n, newer)
    ensures Within(q[..pos] + q[pos + 1..], n, newer)
  {
    var i :| 0 <= i < |q| && q[i] == n && |q| - 1 - i <= newer;
    var left := q[..pos] + q[pos + 1..];
    assert left[if i < pos then i else i - 1] == n;
  }

  /** How many submits a history notes from position `from` on. */
  function NotesFrom(history: seq<Timed>, from: nat): nat {
    if |history| <= from then 0
    else NotesFrom(history[..|history| - 1], from) + if history[|history| - 1].event.Note? then 1 else 0
  }

  lemma StepKeepsPlace(cfg: Config, r: Run, e: Event, now: nat, n: Noted, newer: nat)
    requires Within(r.t.failed, n, newer) && now - n.at < 3_600_000 && (e.Note? ==> newer < 255)
    requires Next(cfg, r, e, now).adopted[n.submit] == r.adopted[n.submit]
    ensures Within(Next(cfg, r, e, now).t.failed, n, if e.Note? then newer + 1 else newer)
  {
    PruneKeepsPlace(r.t.failed, now, n, newer);
    hide Prune, Within, DropOldest, Adoptable;
    match e {
      case Note(s) => NoteKeepsPlace(Prune(r.t.failed, now), n, newer, Noted(now, s));
      case Adopt(o) =>
        AdoptNext(cfg, r, o, now);
        var pos := Adoptable(r.t, o, now);
        if pos.Some? {
          TakeOutKeepsPlace(Prune(r.t.failed, now), pos.value, n, newer);
        }
      case _ => QueueUntouched(cfg, r, e, now);
    }
  }

  lemma QueueUntouched(cfg: Config, r: Run, e: Event, now: nat)
    requires !e.Note? && !e.Adopt?
    ensures Next(cfg, r, e, now).t.failed == r.t.failed
  {
    hide Prune, FirstMatch;
  }

  lemma AdoptionsGrow(cfg: Config, r: Run, e: Event, now: nat, s: FailedSubmit)
    ensures r.adopted[s] <= Next(cfg, r, e, now).adopted[s]
  {
    hide Apply, Prune;
  }

  lemma {:induction false} AdoptionsNeverShrink(cfg: Config, history: seq<Timed>, m: nat, s: FailedSubmit)
    requires m <= |history|
    ensures After(cfg, history[..m]).adopted[s] <= After(cfg, history).adopted[s]
    decreases |history|
  {
    if m == |history| {
      assert history[..m] == history;
    } else {
      var n := |history| - 1;
      assert history[..n][..m] == history[..m];
      AdoptionsNeverShrink(cfg, history[..n], m, s);
      AdoptionsGrow(cfg, After(cfg, history[..n]), history[n].event, history[n].now, s);
    }
  }

  lemma NotedIsLast(cfg: Config, r: Run, s: FailedSubmit, now: nat)
    ensures Within(Next(cfg, r, Note(s), now).t.failed, Noted(now, s), 0)
  {
    hide Prune, DropOldest;
    var q := Next(cfg, r, Note(s), now).t.failed;
    assert q == DropOldest(Prune(r.t.failed, now)) + [Noted(now, s)];
    assert q[|q| - 1] == Noted(now, s);
  }

  lemma {:induction false} StaysWithin(cfg: Config, history: seq<Timed>, m: nat, s: FailedSubmit)
    requires m < |history| && history[m].event == Note(s) && InTimeOrder(history)
    requires history[|history| - 1].now - history[m].now < 3_600_000 && NotesFrom(history, m + 1) < 256
    requires After(cfg, history).adopted[s] == After(cfg, history[..m + 1]).adopted[s]
    ensures Within(After(cfg, history).t.failed, Noted(history[m].now, s), NotesFrom(history, m + 1))
    decreases |history|
  {
    hide Next, Within;
    var n := |history| - 1;
    var r := After(cfg, history[..n]);
    if n == m {
      assert history[..m + 1] == history;
      NotedIsLast(cfg, r, s, history[m].now);
    } else {
      assert history[..n][..m + 1] == history[..m + 1];
      assert history[..n][m] == history[m];
      AdoptionsNeverShrink(cfg, history[..n], m + 1, s);
      AdoptionsGrow(cfg, r, history[n].event, history[n].now, s);
      StaysWithin(cfg, history[..n], m, s);
      StepKeepsPlace(cfg, r, history[n].event, history[n].now, Noted(history[m].now, s), NotesFrom(history[..n], m + 1));
    }
  }

  /**
   A noted submit stays adoptable for an hour: an untracked order booked from it is adopted, unless the payload was
   adopted meanwhile or 256 newer submits were noted.
   */
  lemma NotedStaysAdoptable(cfg: Config, history: seq<Timed>, m: nat, s: FailedSubmit, o: ServerOrder, now: nat)
    requires m < |history| && history[m].event == Note(s) && InTimeOrder(history) && history[|history| - 1].now <= now
    requires now - history[m].now < 3_600_000 && NotesFrom(history, m + 1) < 256
    requires After(cfg, history).adopted[s] == After(cfg, history[..m + 1]).adopted[s]
    requires s.nonce == o.nonce && s.market == o.market && Some(s.signature) == o.signature && s.signedData == o.signedData
    ensures Adoptable(After(cfg, history).t, o, now).Some? <==> o.orderId !in After(cfg, history).t.orders
  {
    StaysWithin(cfg, history, m, s);
    var t := After(cfg, history).t;
    var i :| 0 <= i < |t.failed| && t.failed[i] == Noted(history[m].now, s);
    assert t.failed[i] in t.failed;
    hide After, Adoptable;
    AdoptionExact(t, o, now);
    assert BookedFromKept(t.failed, o, now);
  }
}
