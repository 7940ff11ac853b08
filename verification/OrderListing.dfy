/** The listing the grid works from: pages fetched status by status, each order id once. */
module OrderListing {
  import opened GridPricing
  import opened GridOps

  /** Position of the first copy of `id`, or the length when there is none. */
  function FirstAt(orders: seq<Resting>, id: nat): nat {
    if orders == [] || orders[0].id == id then 0 else 1 + FirstAt(orders[1..], id)
  }

  lemma {:induction false} FirstAtIs(orders: seq<Resting>, id: nat)
    ensures FirstAt(orders, id) <= |orders|
    ensures FirstAt(orders, id) < |orders| ==> orders[FirstAt(orders, id)].id == id
    ensures forall j :: 0 <= j < FirstAt(orders, id) ==> orders[j].id != id
  {
    if orders != [] && orders[0].id != id {
      FirstAtIs(orders[1..], id);
      forall j | 0 < j < FirstAt(orders, id) ensures orders[j].id != id {
        assert orders[j] == orders[1..][j - 1];
      }
    }
  }

  predicate HasId(orders: seq<Resting>, id: nat) {
    FirstAt(orders, id) < |orders|
  }

  ghost predicate LastCopyOf(orders: seq<Resting>, id: nat, o: Resting) {
    exists k :: 0 <= k < |orders| && orders[k] == o && o.id == id && forall j :: k < j < |orders| ==> orders[j].id != id
  }

  /** `r` lists every id of `orders` once, in order of first appearance, each with its last copy. */
  ghost predicate ListsEachOnce(orders: seq<Resting>, r: seq<Resting>) {
    && (forall a, b :: 0 <= a < b < |r| ==> FirstAt(orders, r[a].id) < FirstAt(orders, r[b].id))
    && (forall a :: 0 <= a < |r| ==> LastCopyOf(orders, r[a].id, r[a]))
    && (forall id: nat :: HasId(orders, id) <==> exists a :: 0 <= a < |r| && r[a].id == id)
  }

  function Flatten(pages: seq<seq<Resting>>): seq<Resting> {
    if pages == [] then [] else pages[0] + Flatten(pages[1..])
  }

  /** The insertion-ordered map built so far: a repeated id keeps its place and takes the later copy. */
  ghost predicate Indexed(orders: seq<Resting>, i: nat, ids: seq<nat>, byId: map<nat, Resting>) {
    && i <= |orders|
    && InPlace(orders, i, ids, byId.Keys)
    && Latest(orders[..i], byId)
  }

  ghost predicate Latest(seen: seq<Resting>, byId: map<nat, Resting>) {
    forall id :: id in byId ==> LastCopyOf(seen, id, byId[id])
  }

  ghost predicate InPlace(orders: seq<Resting>, i: nat, ids: seq<nat>, keys: set<nat>) {
    && (forall a, b :: 0 <= a < b < |ids| ==> FirstAt(orders, ids[a]) < FirstAt(orders, ids[b]))
    && (forall id :: id in keys <==> id in ids)
    && (forall id :: id in keys <==> FirstAt(orders, id) < i)
  }

  lemma LastCopyStays(orders: seq<Resting>, next: Resting, id: nat, o: Resting)
    requires next.id != id && LastCopyOf(orders, id, o)
    ensures LastCopyOf(orders + [next], id, o)
  {
    var k :| 0 <= k < |orders| && orders[k] == o && forall j :: k < j < |orders| ==> orders[j].id != id;
    var longer := orders + [next];
    assert longer[k] == o && forall j :: k < j < |longer| ==> longer[j].id != id;
  }

  lemma LastCopyArrives(orders: seq<Resting>, next: Resting)
    ensures LastCopyOf(orders + [next], next.id, next)
  {
    assert (orders + [next])[|orders|] == next;
  }

  lemma InPlaceStep(orders: seq<Resting>, i: nat, ids: seq<nat>, keys: set<nat>)
    requires i < |orders| && InPlace(orders, i, ids, keys)
    ensures var id := orders[i].id; InPlace(orders, i + 1, if id in keys then ids else ids + [id], keys + {id})
  {
    FirstBeyond(orders, i);
    hide FirstAt;
    assert forall a :: 0 <= a < |ids| ==> ids[a] in ids && FirstAt(orders, ids[a]) < i;
  }

  lemma LatestStep(seen: seq<Resting>, o: Resting, byId: map<nat, Resting>)
    requires Latest(seen, byId)
    ensures Latest(seen + [o], byId[o.id := o])
  {
    hide LastCopyOf;
    forall id | id in byId || id == o.id ensures LastCopyOf(seen + [o], id, if id == o.id then o else byId[id]) {
      if id == o.id {
        LastCopyArrives(seen, o);
      } else {
        LastCopyStays(seen, o, id, byId[id]);
      }
    }
  }

  lemma IndexedStep(orders: seq<Resting>, i: nat, ids: seq<nat>, byId: map<nat, Resting>)
    requires i < |orders| && Indexed(orders, i, ids, byId)
    ensures var o := orders[i];
            Indexed(orders, i + 1, if o.id in byId then ids else ids + [o.id], byId[o.id := o])
  {
    hide Latest, InPlace;
    var o := orders[i];
    InPlaceStep(orders, i, ids, byId.Keys);
    LatestStep(orders[..i], o, byId);
    assert byId[o.id := o].Keys == byId.Keys + {o.id};
    assert orders[..i + 1] == orders[..i] + [o];
  }

  /** Only the id at `i` can appear there first. */
  lemma FirstBeyond(orders: seq<Resting>, i: nat)
    requires i < |orders|
    ensures FirstAt(orders, orders[i].id) <= i
    ensures forall id: nat :: id != orders[i].id ==> FirstAt(orders, id) != i
  {
    forall id: nat ensures FirstAt(orders, id) == i ==> id == orders[i].id {
      FirstAtIs(orders, id);
    }
    FirstAtIs(orders, orders[i].id);
  }

  method DedupOrders(orders: seq<Resting>) returns (r: seq<Resting>)
    ensures ListsEachOnce(orders, r)
    ensures Distinct(r)
  {
    var ids: seq<nat> := [];
    var byId: map<nat, Resting> := map[];
    for i := 0 to |orders|
      invariant Indexed(orders, i, ids, byId)
    {
      hide *;
      var order := orders[i];
      IndexedStep(orders, i, ids, byId);
      if order.id !in byId {
        ids := ids + [order.id];
      }
      byId := byId[order.id := order];
    }
    r := seq(|ids|, a requires 0 <= a < |ids| && ids[a] in byId => byId[ids[a]]);
    ListedOnce(orders, ids, byId, r);
  }

  lemma ListedOnce(orders: seq<Resting>, ids: seq<nat>, byId: map<nat, Resting>, r: seq<Resting>)
    requires Indexed(orders, |orders|, ids, byId)
    requires |r| == |ids| && forall a :: 0 <= a < |ids| ==> ids[a] in byId && r[a] == byId[ids[a]]
    ensures ListsEachOnce(orders, r) && Distinct(r)
  {
    assert orders[..|orders|] == orders;
    forall a | 0 <= a < |r| ensures r[a].id == ids[a] {
      assert LastCopyOf(orders, ids[a], r[a]);
    }
    hide FirstAt, LastCopyOf;
    forall id: nat ensures HasId(orders, id) <==> exists a :: 0 <= a < |r| && r[a].id == id {
      if HasId(orders, id) {
        assert id in ids;
        var a :| 0 <= a < |ids| && ids[a] == id;
        assert r[a].id == id;
      }
    }
  }

  method MergeStatusPages(pages: seq<seq<Resting>>) returns (r: seq<Resting>)
    ensures ListsEachOnce(Flatten(pages), r)
    ensures Distinct(r)
  {
    r := DedupOrders(Flatten(pages));
  }

  lemma OneLastCopy(orders: seq<Resting>, id: nat, a: Resting, b: Resting)
    requires LastCopyOf(orders, id, a) && LastCopyOf(orders, id, b)
    ensures a == b
  {
  }

  /** Of two listings that agree so far, neither goes on where the other ends or skips what the other lists. */
  lemma NextListed(orders: seq<Resting>, r: seq<Resting>, s: seq<Resting>, n: nat)
    requires ListsEachOnce(orders, r) && ListsEachOnce(orders, s)
    requires n <= |r| && n < |s| && r[..n] == s[..n]
    ensures n < |r| && FirstAt(orders, r[n].id) <= FirstAt(orders, s[n].id)
  {
    hide FirstAt, LastCopyOf;
    assert HasId(orders, s[n].id);
    forall b | 0 <= b < n ensures r[b] == s[b] && FirstAt(orders, r[b].id) < FirstAt(orders, s[n].id) {
      assert r[b] == r[..n][b] && s[b] == s[..n][b];
    }
    var a :| 0 <= a < |r| && r[a].id == s[n].id;
    assert a >= n;
  }

  lemma {:induction false} AgreeUpTo(orders: seq<Resting>, r: seq<Resting>, s: seq<Resting>, n: nat)
    requires ListsEachOnce(orders, r) && ListsEachOnce(orders, s) && n <= |r|
    ensures n <= |s| && r[..n] == s[..n]
  {
    if n > 0 {
      AgreeUpTo(orders, r, s, n - 1);
      NextListed(orders, s, r, n - 1);
      NextListed(orders, r, s, n - 1);
      FirstAtIs(orders, r[n - 1].id);
      FirstAtIs(orders, s[n - 1].id);
      assert HasId(orders, r[n - 1].id);
      OneLastCopy(orders, r[n - 1].id, r[n - 1], s[n - 1]);
      assert r[..n] == r[..n - 1] + [r[n - 1]] && s[..n] == s[..n - 1] + [s[n - 1]];
    }
  }

  /** What the listing promises fixes it completely. */
  lemma SameListing(orders: seq<Resting>, r: seq<Resting>, s: seq<Resting>)
    requires ListsEachOnce(orders, r) && ListsEachOnce(orders, s)
    ensures r == s
  {
    AgreeUpTo(orders, r, s, |r|);
    AgreeUpTo(orders, s, r, |s|);
    assert r[..|r|] == r && s[..|s|] == s;
  }
}
