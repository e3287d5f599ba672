/**
 `SimCache` and its `CacheStore`: items by rank, the identifiers seen, and a short
 memory of identifiers that are disallowed.
 */
module CacheStores {
  import opened Words
  import opened Validity
  import Lrus

  type Items = map<U128, SimItem>

  /** An item with its rank in the cache. */
  datatype Ranked = Ranked(rank: U128, item: SimItem)

  /** An item with the fee it pays. */
  datatype Offer = Offer(fee: U128, item: SimItem)

  // ---- ranks in order ----

  /** The keys of an ordered map, lowest first. */
  ghost predicate IsAscending(order: seq<U128>, keys: set<U128>) {
    && (forall i, j | 0 <= i < j < |order| :: order[i] < order[j])
    && (forall r :: r in keys <==> r in order)
  }

  lemma {:induction false} EmptyOrder(order: seq<U128>, keys: set<U128>)
    requires IsAscending(order, keys)
    ensures order == [] <==> keys == {}
  {
    if order != [] {
      assert order[0] in keys;
    }
  }

  lemma {:induction false} LastIsGreatest(order: seq<U128>, keys: set<U128>)
    requires IsAscending(order, keys) && order != []
    ensures var n := |order| - 1;
            && order[n] in keys && (forall r | r in keys :: r <= order[n])
            && IsAscending(order[..n], keys - {order[n]})
  {
    var n := |order| - 1;
    assert order == order[..n] + [order[n]];
    assert order[n] in order;
    forall r | r in keys
      ensures r <= order[n]
    {
      var i :| 0 <= i < |order| && order[i] == r;
    }
  }

  lemma {:induction false} AscendingUnique(xs: seq<U128>, ys: seq<U128>, keys: set<U128>)
    requires IsAscending(xs, keys) && IsAscending(ys, keys)
    ensures xs == ys
    decreases |xs|
  {
    EmptyOrder(xs, keys);
    EmptyOrder(ys, keys);
    if xs != [] {
      var m, n := |xs| - 1, |ys| - 1;
      LastIsGreatest(xs, keys);
      LastIsGreatest(ys, keys);
      AscendingUnique(xs[..m], ys[..n], keys - {xs[m]});
      assert xs == xs[..m] + [xs[m]] && ys == ys[..n] + [ys[n]];
    }
  }

  method Lowest(keys: set<U128>) returns (lo: U128)
    requires keys != {}
    ensures lo in keys && forall r | r in keys :: lo <= r
  {
    lo :| lo in keys;
    var todo := keys - {lo};
    while todo != {}
      invariant lo in keys && todo <= keys
      invariant forall r | r in keys && r !in todo :: lo <= r
      decreases |todo|
    {
      var r :| r in todo;
      if r < lo {
        lo := r;
      }
      todo := todo - {r};
    }
  }

  method Ascending(keys: set<U128>) returns (order: seq<U128>)
    ensures IsAscending(order, keys)
  {
    order := [];
    var todo := keys;
    while todo != {}
      invariant todo <= keys && IsAscending(order, keys - todo)
      invariant forall i, r | 0 <= i < |order| && r in todo :: order[i] < r
      decreases |todo|
    {
      var lo := Lowest(todo);
      order := order + [lo];
      todo := todo - {lo};
    }
    assert keys - todo == keys;
  }

  // ---- what the store keeps ----

  ghost function Ids(items: Items): set<Identifier> {
    set r | r in items :: items[r].Id()
  }

  ghost predicate SameId(items: Items, p: U128, q: U128) {
    p in items && q in items && items[p].Id() == items[q].Id()
  }

  ghost predicate DistinctIds(items: Items) {
    forall p: U128, q: U128 {:trigger SameId(items, p, q)} :: SameId(items, p, q) ==> p == q
  }

  const DISALLOWED_CAPACITY: nat := 128

  /** `LruCache::put`: the newest comes first; the oldest falls out. */
  function Put(lru: seq<Identifier>, id: Identifier): (after: seq<Identifier>)
    ensures forall x :: x in after ==> x in lru || x == id
    ensures id in after
    ensures |lru| <= DISALLOWED_CAPACITY ==> |after| <= DISALLOWED_CAPACITY
  {
    Lrus.Put(lru, id, DISALLOWED_CAPACITY)
  }

  /**
   Stored identifiers are distinct and not disallowed; those seen are the stored
   ones and the `lost` ones, whose item was overwritten at rank zero.
   */
  ghost predicate Consistent(items: Items, seen: set<Identifier>, disallowed: seq<Identifier>,
                             lost: set<Identifier>) {
    && DistinctIds(items)
    && seen == Ids(items) + lost && Ids(items) !! lost
    && (forall id | id in disallowed :: id !in Ids(items))
    && |disallowed| <= DISALLOWED_CAPACITY && Lrus.NoRepeats(disallowed)
  }

  lemma {:induction false} RemoveKeeps(items: Items, seen: set<Identifier>,
                                       disallowed: seq<Identifier>, lost: set<Identifier>, r: U128)
    requires Consistent(items, seen, disallowed, lost) && r in items
    ensures Ids(items - {r}) == Ids(items) - {items[r].Id()}
    ensures Consistent(items - {r}, seen - {items[r].Id()}, disallowed, lost)
  {
    assert forall p: U128, q: U128 :: SameId(items - {r}, p, q) ==> SameId(items, p, q);
    assert forall p | p in items - {r} :: !SameId(items, p, r);
    forall id
      ensures id in Ids(items - {r}) <==> id in Ids(items) && id != items[r].Id()
    {
      if id in Ids(items) && id != items[r].Id() {
        var p :| p in items && items[p].Id() == id;
        assert p in items - {r};
      }
    }
  }

  lemma {:induction false} InsertKeeps(items: Items, seen: set<Identifier>,
                                       disallowed: seq<Identifier>, lost: set<Identifier>, r: U128,
                                       item: SimItem)
    requires Consistent(items, seen, disallowed, lost)
    requires item.Id() !in seen && item.Id() !in disallowed
    ensures Consistent(items[r := item], seen + {item.Id()}, disallowed,
                       if r in items then lost + {items[r].Id()} else lost)
  {
    var rest := items - {r};
    if r in items {
      RemoveKeeps(items, seen, disallowed, lost, r);
    } else {
      assert rest == items;
    }
    var more := items[r := item];
    forall id
      ensures id in Ids(more) <==> id in Ids(rest) || id == item.Id()
    {
      assert r in more;
      if id in Ids(rest) {
        var p :| p in rest && rest[p].Id() == id;
        assert p in more && more[p].Id() == id;
      }
      if id in Ids(more) && id != item.Id() {
        var p :| p in more && more[p].Id() == id;
        assert p in rest && rest[p].Id() == id;
      }
    }
    forall p: U128, q: U128 | SameId(more, p, q)
      ensures p == q
    {
      assert forall p | p in rest :: rest[p].Id() in Ids(items);
      if p != r && q != r {
        assert SameId(items, p, q);
      }
    }
  }

  lemma {:induction false} DisallowKeeps(items: Items, seen: set<Identifier>,
                                         disallowed: seq<Identifier>, lost: set<Identifier>,
                                         id: Identifier)
    requires Consistent(items, seen, disallowed, lost) && id !in Ids(items)
    ensures Consistent(items, seen, Put(disallowed, id), lost)
  {
    Lrus.PutDistinct(disallowed, id, DISALLOWED_CAPACITY);
  }

  // ---- ranks for new items ----

  /** The greatest free rank at or below the fee; rank zero when there is none. */
  ghost predicate TakesRank(items: Items, fee: U128, r: U128) {
    && r <= fee
    && (forall q | r < q <= fee :: q in items)
    && (r in items ==> r == 0)
  }

  lemma {:induction false} OneRank(items: Items, fee: U128, p: U128, q: U128)
    requires TakesRank(items, fee, p) && TakesRank(items, fee, q)
    ensures p == q
  {
  }

  /** The lowest rank goes when there is no room. */
  ghost predicate Evicted(before: Items, capacity: nat, after: Items) {
    if |before| < capacity || before == map[] then after == before
    else exists lo | lo in before ::
      (forall r | r in before :: lo <= r) && after == before - {lo}
  }

  /**
   An item is overwritten, and its identifier lost, exactly when there was room and
   every rank up to the fee was taken.
   */
  lemma {:induction false} OverwrittenWhen(items: Items, fee: U128, r: U128, capacity: nat,
                                           kept: Items)
    requires TakesRank(items, fee, r) && Evicted(items, capacity, kept)
    ensures r in kept <==> |items| < capacity && forall q: U128 | q <= fee :: q in items
    ensures r in kept ==> r == 0
  {
    if |items| >= capacity && items != map[] {
      var lo :| lo in items && (forall q | q in items :: lo <= q) && kept == items - {lo};
    }
  }

  lemma {:induction false} LowFeeRank(items: Items, fee: U128, r: U128, lo: U128)
    requires TakesRank(items, fee, r)
    requires fee < lo && forall q | q in items :: lo <= q
    ensures r == fee
  {
    assert fee !in items;
  }

  lemma {:induction false} LowestEvicted(items: Items, capacity: nat, kept: Items, lo: U128)
    requires Evicted(items, capacity, kept) && |items| >= capacity
    requires lo in items && forall q | q in items :: lo <= q
    ensures kept == items - {lo}
  {
    var low :| low in items && (forall q | q in items :: low <= q) && kept == items - {low};
    assert low <= lo <= low;
  }

  /** At capacity even a newcomer that pays less than every item evicts the lowest of them. */
  lemma {:induction false} LowFeeEvicts(s: Store, capacity: nat, fee: U128, item: SimItem, t: Store,
                                        lo: U128)
    requires Added(s, capacity, fee, item, t)
    requires item.Id() !in s.disallowed && item.Id() !in s.seen
    requires |s.items| >= capacity && lo in s.items && forall r | r in s.items :: lo <= r
    requires fee < lo
    ensures t.items == (s.items - {lo})[fee := item]
  {
    var r: U128, kept: Items :| TakesRank(s.items, fee, r) && Evicted(s.items, capacity, kept)
      && t == WithItems(s.(lost := if r in kept then s.lost + {kept[r].Id()} else s.lost),
                        kept[r := item]);
    LowFeeRank(s.items, fee, r, lo);
    LowestEvicted(s.items, capacity, kept, lo);
  }

  /** The store as a value. */
  datatype Store = Store(items: Items, seen: set<Identifier>, disallowed: seq<Identifier>,
                         lost: set<Identifier>)

  /** The store with other items, and just their identifiers and the lost ones seen. */
  ghost function WithItems(s: Store, items: Items): Store {
    Store(items, Ids(items) + s.lost, s.disallowed, s.lost)
  }

  /**
   `add_inner`: nothing for an item that is disallowed or already seen; otherwise it
   is stored at its rank, whatever that costs the lowest one.
   */
  ghost predicate Added(s: Store, capacity: nat, fee: U128, item: SimItem, t: Store) {
    if item.Id() in s.disallowed || item.Id() in s.seen then t == s
    else
      exists r: U128, kept: Items | TakesRank(s.items, fee, r) && Evicted(s.items, capacity, kept) ::
        t == WithItems(s.(lost := if r in kept then s.lost + {kept[r].Id()} else s.lost),
                       kept[r := item])
  }

  /**
   What an offer does: a refused one nothing; any other is stored at the greatest free rank
   at or below its fee, or at zero, and only a full store gives up its lowest item for it.
   */
  lemma {:induction false} OfferIsStored(s: Store, capacity: nat, fee: U128, item: SimItem, t: Store)
    returns (r: U128)
    requires Added(s, capacity, fee, item, t)
    requires item.Id() !in s.disallowed && item.Id() !in s.seen
    ensures r <= fee && (forall q | r < q <= fee :: q in s.items) && (r in s.items ==> r == 0)
    ensures r in t.items && t.items[r] == item && item.Id() in t.seen && t.disallowed == s.disallowed
    ensures |s.items| < capacity || s.items == map[] ==> t.items == s.items[r := item]
    ensures |s.items| >= capacity && s.items != map[] ==>
              exists lo | lo in s.items ::
                (forall q | q in s.items :: lo <= q) && t.items == (s.items - {lo})[r := item]
  {
    var rank: U128, kept: Items :| TakesRank(s.items, fee, rank) && Evicted(s.items, capacity, kept)
      && t == WithItems(s.(lost := if rank in kept then s.lost + {kept[rank].Id()} else s.lost),
                        kept[rank := item]);
    r := rank;
  }

  /** Items offered one after the other, each with its fee. */
  ghost predicate AddedAll(s: Store, capacity: nat, offers: seq<Offer>, t: Store) {
    if offers == [] then t == s
    else
      var before, last := offers[..|offers| - 1], offers[|offers| - 1];
      exists mid :: AddedAll(s, capacity, before, mid) && Added(mid, capacity, last.fee, last.item, t)
  }

  lemma {:induction false} AddedMore(s: Store, capacity: nat, offers: seq<Offer>, k: nat,
                                     mid: Store, t: Store)
    requires k < |offers| && AddedAll(s, capacity, offers[..k], mid)
    requires Added(mid, capacity, offers[k].fee, offers[k].item, t)
    ensures AddedAll(s, capacity, offers[..k + 1], t)
  {
    assert offers[..k + 1][..k] == offers[..k];
  }

  // ---- reading the best valid items ----

  type Candidates = seq<Ranked>

  /** Strictly falling ranks. */
  predicate Descends(cs: Candidates) {
    |cs| < 2 ||
    var n := |cs| - 1;
    Descends(cs[..n]) && cs[n - 1].rank > cs[n].rank
  }

  /** The snapshot a read works on: every item of the cache once, best first. */
  ghost predicate IsSnapshot(cs: Candidates, items: Items) {
    && Descends(cs)
    && (forall c | c in cs :: c.rank in items && items[c.rank] == c.item)
    && (forall r | r in items :: Ranked(r, items[r]) in cs)
  }

  lemma {:induction false} DescendsAt(cs: Candidates, k: nat)
    requires Descends(cs) && k < |cs|
    ensures forall c | c in cs[..k] :: c.rank > cs[k].rank
  {
    var n := |cs| - 1;
    if k < n {
      DescendsAt(cs[..n], k);
      assert cs[..n][..k] == cs[..k];
    } else if n > 0 {
      DescendsAt(cs[..n], n - 1);
      assert cs[..n] == cs[..n - 1] + [cs[n - 1]];
      assert cs[..n][..n - 1] == cs[..n - 1];
    }
  }

  /** Those that check as valid now, in the same order. */
  function NowAmong(cs: Candidates, source: StateSource, host: StateSource): (now: Candidates)
    ensures |now| <= |cs|
  {
    if cs == [] then []
    else
      var now, last := NowAmong(cs[..|cs| - 1], source, host), cs[|cs| - 1];
      if ItemVerdict(last.item, source, host) == Ok(Now) then now + [last] else now
  }

  /** The ranks of those that can never be valid. */
  function NeverAmong(cs: Candidates, source: StateSource, host: StateSource): seq<U128> {
    if cs == [] then []
    else
      var never, last := NeverAmong(cs[..|cs| - 1], source, host), cs[|cs| - 1];
      if ItemVerdict(last.item, source, host) == Ok(Never) then never + [last.rank] else never
  }

  /** None of them failed to be checked. */
  predicate AllChecked(cs: Candidates, source: StateSource, host: StateSource) {
    cs == [] ||
    var n := |cs| - 1;
    AllChecked(cs[..n], source, host) && ItemVerdict(cs[n].item, source, host).Ok?
  }

  lemma {:induction false} CheckedAt(cs: Candidates, source: StateSource, host: StateSource, k: nat)
    requires AllChecked(cs, source, host) && k < |cs|
    ensures ItemVerdict(cs[k].item, source, host).Ok?
  {
    if k < |cs| - 1 {
      CheckedAt(cs[..|cs| - 1], source, host, k);
    }
  }

  lemma {:induction false} OneAmong(cs: Candidates, k: nat, source: StateSource, host: StateSource,
                                    v: Verdict)
    requires k < |cs| && v == ItemVerdict(cs[k].item, source, host)
    ensures NowAmong(cs[..k + 1], source, host)
         == if v == Ok(Now) then NowAmong(cs[..k], source, host) + [cs[k]]
            else NowAmong(cs[..k], source, host)
    ensures NeverAmong(cs[..k + 1], source, host)
         == if v == Ok(Never) then NeverAmong(cs[..k], source, host) + [cs[k].rank]
            else NeverAmong(cs[..k], source, host)
    ensures AllChecked(cs[..k + 1], source, host) <==> AllChecked(cs[..k], source, host) && v.Ok?
  {
    assert cs[..k + 1][..k] == cs[..k];
  }

  /** What is read stays: an item valid now is not among those that can never be. */
  lemma {:induction false} NowIsNotNever(items: Items, cs: Candidates, source: StateSource,
                                         host: StateSource)
    requires forall c | c in cs :: c.rank in items && items[c.rank] == c.item
    ensures forall c | c in NowAmong(cs, source, host) ::
              && c in cs && ItemVerdict(c.item, source, host) == Ok(Now)
              && c.rank !in NeverAmong(cs, source, host)
    ensures forall r | r in NeverAmong(cs, source, host) ::
              r in items && ItemVerdict(items[r], source, host) == Ok(Never)
  {
    if cs != [] {
      var n := |cs| - 1;
      assert cs == cs[..n] + [cs[n]];
      NowIsNotNever(items, cs[..n], source, host);
    }
  }

  /** The read looks at the first `m` and stops: it has `n` items, or there are no more. */
  ghost predicate StopsAt(cs: Candidates, source: StateSource, host: StateSource, n: nat, m: nat) {
    && m <= |cs|
    && |NowAmong(cs[..m], source, host)| <= n
    && (m < |cs| ==> |NowAmong(cs[..m], source, host)| == n)
    && (m > 0 ==> |NowAmong(cs[..m - 1], source, host)| < n)
  }

  lemma {:induction false} NowGrows(cs: Candidates, source: StateSource, host: StateSource, x: nat,
                                    y: nat)
    requires x <= y <= |cs|
    ensures NowAmong(cs[..x], source, host) <= NowAmong(cs[..y], source, host)
    decreases y
  {
    if x < y {
      NowGrows(cs, source, host, x, y - 1);
      assert cs[..y][..y - 1] == cs[..y - 1];
    }
  }

  /** What was read is the first `n` of all items valid now, best first. */
  lemma {:induction false} ReadsTheBest(cs: Candidates, source: StateSource, host: StateSource, n: nat,
                                        m: nat)
    requires StopsAt(cs, source, host, n, m)
    ensures var all := NowAmong(cs, source, host);
            NowAmong(cs[..m], source, host) == all[..Min(n, |all|)]
  {
    NowGrows(cs, source, host, m, |cs|);
    assert cs[..|cs|] == cs;
  }

  /** There is only one place to stop. */
  lemma {:induction false} OneStop(cs: Candidates, source: StateSource, host: StateSource, n: nat,
                                   x: nat, y: nat)
    requires StopsAt(cs, source, host, n, x) && StopsAt(cs, source, host, n, y)
    ensures x == y
  {
    if x < y {
      NowGrows(cs, source, host, x, y - 1);
    } else if y < x {
      NowGrows(cs, source, host, y, x - 1);
    }
  }

  // ---- what a read returns and removes, in terms of the cache ----

  /** The best `n` items valid now, best first; fewer only when there are no more. */
  ghost predicate BestValid(items: Items, source: StateSource, host: StateSource, n: nat, best: Candidates) {
    && |best| <= n
    && Falls(best)
    && (forall c | c in best ::
          c.rank in items && items[c.rank] == c.item && ItemVerdict(c.item, source, host) == Ok(Now))
    && (forall r | r in items && ItemVerdict(items[r], source, host) == Ok(Now) ::
          || Ranked(r, items[r]) in best
          || (|best| == n && forall c | c in best :: r < c.rank))
  }

  /** A read that returned these looked at everything down to the last of them, or at all. */
  predicate LookedAt(best: Candidates, n: nat, r: U128) {
    n > 0 && (|best| < n || best[n - 1].rank <= r)
  }

  lemma {:induction false} NowMembers(cs: Candidates, source: StateSource, host: StateSource, c: Ranked)
    ensures c in NowAmong(cs, source, host) <==> c in cs && ItemVerdict(c.item, source, host) == Ok(Now)
  {
    if cs != [] {
      NowMembers(cs[..|cs| - 1], source, host, c);
      assert cs == cs[..|cs| - 1] + [cs[|cs| - 1]];
    }
  }

  /** Every rank is above that of what comes later. */
  ghost predicate Falls(cs: Candidates) {
    forall i, j | 0 <= i < j < |cs| :: cs[i].rank > cs[j].rank
  }

  lemma {:induction false} FallsMore(before: Candidates, c: Ranked)
    requires Falls(before) && forall b | b in before :: b.rank > c.rank
    ensures Falls(before + [c])
  {
    forall i, j | 0 <= i < j < |before| + 1
      ensures (before + [c])[i].rank > (before + [c])[j].rank
    {
      assert before[i] in before;
    }
  }

  lemma {:induction false} NowDescends(cs: Candidates, source: StateSource, host: StateSource)
    requires Descends(cs)
    ensures Falls(NowAmong(cs, source, host))
  {
    if cs != [] {
      var n := |cs| - 1;
      var before := NowAmong(cs[..n], source, host);
      NowDescends(cs[..n], source, host);
      DescendsAt(cs, n);
      forall b | b in before
        ensures b.rank > cs[n].rank
      {
        NowMembers(cs[..n], source, host, b);
      }
      FallsMore(before, cs[n]);
    }
  }

  /** Of a falling list, what is not among the first `n` ranks below all of them. */
  lemma {:induction false} CutOff(all: Candidates, n: nat, best: Candidates, c: Ranked)
    requires Falls(all)
    requires best == all[..Min(n, |all|)] && c in all
    ensures c in best || (|best| == n && forall b | b in best :: c.rank < b.rank)
  {
    var k :| 0 <= k < |all| && all[k] == c;
    if k < |best| {
      assert best[k] == c;
    } else {
      forall b | b in best
        ensures c.rank < b.rank
      {
        var i :| 0 <= i < |best| && best[i] == b;
        assert all[i] == b;
      }
    }
  }

  /** All items valid now, best first. */
  ghost predicate AllValid(items: Items, source: StateSource, host: StateSource, all: Candidates) {
    && Falls(all)
    && (forall c | c in all ::
          c.rank in items && items[c.rank] == c.item && ItemVerdict(c.item, source, host) == Ok(Now))
    && (forall r | r in items && ItemVerdict(items[r], source, host) == Ok(Now) :: Ranked(r, items[r]) in all)
  }

  lemma {:induction false} FirstAreBest(items: Items, source: StateSource, host: StateSource, all: Candidates,
                                        n: nat, best: Candidates)
    requires AllValid(items, source, host, all) && best == all[..Min(n, |all|)]
    ensures BestValid(items, source, host, n, best)
  {
    forall c | c in best
      ensures c in all
    {
    }
    forall r | r in items && ItemVerdict(items[r], source, host) == Ok(Now)
      ensures Ranked(r, items[r]) in best || (|best| == n && forall c | c in best :: r < c.rank)
    {
      CutOff(all, n, best, Ranked(r, items[r]));
    }
  }

  lemma {:induction false} NowIsAll(items: Items, cs: Candidates, source: StateSource, host: StateSource)
    requires IsSnapshot(cs, items)
    ensures AllValid(items, source, host, NowAmong(cs, source, host))
  {
    NowDescends(cs, source, host);
    forall c: Ranked
      ensures c in NowAmong(cs, source, host) <==> c in cs && ItemVerdict(c.item, source, host) == Ok(Now)
    {
      NowMembers(cs, source, host, c);
    }
  }

  lemma {:induction false} ReadIsBest(items: Items, cs: Candidates, source: StateSource, host: StateSource,
                                      n: nat, m: nat)
    requires IsSnapshot(cs, items) && StopsAt(cs, source, host, n, m)
    ensures BestValid(items, source, host, n, NowAmong(cs[..m], source, host))
  {
    ReadsTheBest(cs, source, host, n, m);
    NowIsAll(items, cs, source, host);
    FirstAreBest(items, source, host, NowAmong(cs, source, host), n, NowAmong(cs[..m], source, host));
  }

  /** The first `m` of the snapshot are those looked at. */
  lemma {:induction false} FirstLookedAt(cs: Candidates, source: StateSource, host: StateSource, n: nat,
                                         m: nat, k: nat)
    requires Descends(cs) && StopsAt(cs, source, host, n, m) && k < |cs|
    ensures LookedAt(NowAmong(cs[..m], source, host), n, cs[k].rank) <==> k < m
  {
    var best := NowAmong(cs[..m], source, host);
    if m > 0 && |best| == n {
      assert cs[..m][..m - 1] == cs[..m - 1];
      assert best[n - 1] == cs[m - 1];
      if k < m - 1 {
        DescendsAt(cs, m - 1);
        assert cs[k] in cs[..m - 1];
      } else if k >= m {
        DescendsAt(cs, k);
        assert cs[m - 1] in cs[..k];
      }
    }
  }

  lemma {:induction false} NeverMembers(cs: Candidates, source: StateSource, host: StateSource, r: U128)
    ensures r in NeverAmong(cs, source, host) <==>
            exists k | 0 <= k < |cs| :: cs[k].rank == r && ItemVerdict(cs[k].item, source, host) == Ok(Never)
  {
    if cs != [] {
      var n := |cs| - 1;
      NeverMembers(cs[..n], source, host, r);
      if k :| 0 <= k < |cs| && cs[k].rank == r && ItemVerdict(cs[k].item, source, host) == Ok(Never) {
        assert k < n ==> cs[..n][k] == cs[k];
      }
      if k :| 0 <= k < n && cs[..n][k].rank == r && ItemVerdict(cs[..n][k].item, source, host) == Ok(Never) {
        assert cs[k] == cs[..n][k];
      }
    }
  }

  /** What a read removes: of what it looked at, exactly what can never be valid. */
  lemma {:induction false} ReadRemoves(items: Items, cs: Candidates, source: StateSource, host: StateSource,
                                       n: nat, m: nat, r: U128)
    requires IsSnapshot(cs, items) && StopsAt(cs, source, host, n, m)
    ensures r in NeverAmong(cs[..m], source, host) <==>
            && r in items && ItemVerdict(items[r], source, host) == Ok(Never)
            && LookedAt(NowAmong(cs[..m], source, host), n, r)
  {
    NeverMembers(cs[..m], source, host, r);
    if r in items {
      var k :| 0 <= k < |cs| && cs[k] == Ranked(r, items[r]);
      FirstLookedAt(cs, source, host, n, m, k);
      assert k < m ==> cs[..m][k] == cs[k];
    }
    if r in NeverAmong(cs[..m], source, host) {
      var k :| 0 <= k < m && cs[..m][k].rank == r && ItemVerdict(cs[k].item, source, host) == Ok(Never);
      assert cs[k] in cs && cs[k].rank in items;
      FirstLookedAt(cs, source, host, n, m, k);
    }
  }

  /** All that a read looked at could be checked. */
  lemma {:induction false} ReadChecks(items: Items, cs: Candidates, source: StateSource, host: StateSource,
                                      n: nat, m: nat, r: U128)
    requires IsSnapshot(cs, items) && StopsAt(cs, source, host, n, m)
    requires AllChecked(cs[..m], source, host)
    requires r in items && LookedAt(NowAmong(cs[..m], source, host), n, r)
    ensures ItemVerdict(items[r], source, host).Ok?
  {
    var k :| 0 <= k < |cs| && cs[k] == Ranked(r, items[r]);
    FirstLookedAt(cs, source, host, n, m, k);
    CheckedAt(cs[..m], source, host, k);
  }

  method VerdictOf(item: SimItem, source: StateSource, host: StateSource) returns (verdict: Verdict)
    ensures verdict == ItemVerdict(item, source, host)
  {
    verdict := CheckItem(item, source, host);
  }

  /** The place to stop: enough valid items, or no more candidates. */
  lemma {:induction false} EnoughRead(cs: Candidates, source: StateSource, host: StateSource, n: nat, m: nat,
                                      valid: Candidates)
    requires m <= |cs| && valid == NowAmong(cs[..m], source, host)
    requires |valid| <= n && (m < |cs| ==> |valid| == n)
    requires m > 0 ==> |NowAmong(cs[..m - 1], source, host)| < n
    ensures StopsAt(cs, source, host, n, m)
    ensures var all := NowAmong(cs, source, host); valid == all[..Min(n, |all|)]
  {
    ReadsTheBest(cs, source, host, n, m);
  }

  /** The examination: valid items are collected, hopeless ranks noted, nothing changed. */
  method Examine(candidates: Candidates, n: nat, source: StateSource, host: StateSource)
    returns (error: Option<SourceError>, valid: Candidates, never: seq<U128>, ghost m: nat)
    ensures m <= |candidates|
    ensures valid == NowAmong(candidates[..m], source, host)
    ensures never == NeverAmong(candidates[..m], source, host)
    ensures error.None? ==>
              && StopsAt(candidates, source, host, n, m)
              && AllChecked(candidates[..m], source, host)
              && var all := NowAmong(candidates, source, host); valid == all[..Min(n, |all|)]
    ensures error.Some? ==>
              && m < |candidates| && |valid| < n
              && ItemVerdict(candidates[m].item, source, host) == Err(error.value)
  {
    error, valid, never, m := None, [], [], 0;
    for k := 0 to |candidates|
      invariant m == k && error.None?
      invariant valid == NowAmong(candidates[..k], source, host)
      invariant never == NeverAmong(candidates[..k], source, host)
      invariant |valid| <= n
      invariant AllChecked(candidates[..k], source, host)
      invariant k > 0 ==> |NowAmong(candidates[..k - 1], source, host)| < n
    {
      if |valid| >= n {
        EnoughRead(candidates, source, host, n, m, valid);
        return;
      }
      var c := candidates[k];
      var validity := VerdictOf(c.item, source, host);
      if validity.Err? {
        error := Some(validity.error);
        return;
      }
      OneAmong(candidates, k, source, host, validity);
      match validity.value {
        case Now => valid := valid + [c];
        case Never => never := never + [c.rank];
        case Future =>
      }
      m := m + 1;
    }
    EnoughRead(candidates, source, host, n, m, valid);
  }

  // ---- cleaning for a block ----

  /** A transaction at any time, a bundle only in its block and its range of timestamps. */
  predicate Current(item: SimItem, blockNumber: U64, timestamp: U64) {
    item.BundleItem? ==>
      && blockNumber == item.bundle.blockNumber
      && (item.bundle.minTimestamp.Some? ==> item.bundle.minTimestamp.value <= timestamp)
      && (item.bundle.maxTimestamp.Some? ==> timestamp <= item.bundle.maxTimestamp.value)
  }

  /** The block or the range of timestamps of a bundle has passed. */
  predicate Expired(item: SimItem, blockNumber: U64, timestamp: U64) {
    && item.BundleItem?
    && (|| blockNumber > item.bundle.blockNumber
        || (item.bundle.maxTimestamp.Some? && timestamp > item.bundle.maxTimestamp.value))
  }

  /** What has expired is current in no later block, which justifies disallowing it. */
  lemma {:induction false} ExpiredIsPermanent(item: SimItem, blockNumber: U64, timestamp: U64,
                                              laterNumber: U64, laterTimestamp: U64)
    requires blockNumber <= laterNumber && timestamp <= laterTimestamp
    requires Expired(item, blockNumber, timestamp)
    ensures Expired(item, laterNumber, laterTimestamp)
    ensures !Current(item, laterNumber, laterTimestamp)
  {
  }

  /** The closure `clean` hands to `retain`, for the item at one rank. */
  function Cleaned(s: Store, r: U128, blockNumber: U64, timestamp: U64): Store {
    if r !in s.items || Current(s.items[r], blockNumber, timestamp) then s
    else
      var id := s.items[r].Id();
      Store(s.items - {r}, s.seen - {id},
            if Expired(s.items[r], blockNumber, timestamp) then Put(s.disallowed, id) else s.disallowed,
            s.lost)
  }

  function CleanedAll(s: Store, ranks: seq<U128>, blockNumber: U64, timestamp: U64): Store {
    if ranks == [] then s
    else
      var n := |ranks| - 1;
      Cleaned(CleanedAll(s, ranks[..n], blockNumber, timestamp), ranks[n], blockNumber, timestamp)
  }

  lemma {:induction false} CleanedItems(s: Store, ranks: seq<U128>, blockNumber: U64, timestamp: U64)
    ensures var t := CleanedAll(s, ranks, blockNumber, timestamp);
            && (forall r :: r in t.items <==>
                  r in s.items && (r !in ranks || Current(s.items[r], blockNumber, timestamp)))
            && (forall r | r in t.items :: t.items[r] == s.items[r])
            && t.lost == s.lost
  {
    if ranks != [] {
      var n := |ranks| - 1;
      CleanedItems(s, ranks[..n], blockNumber, timestamp);
      assert ranks == ranks[..n] + [ranks[n]];
    }
  }

  /** The identifiers of the bundles at these ranks whose block or last timestamp has passed. */
  function ExpiredIds(items: Items, ranks: seq<U128>, blockNumber: U64, timestamp: U64): seq<Identifier> {
    if ranks == [] then []
    else
      var n := |ranks| - 1;
      var ids := ExpiredIds(items, ranks[..n], blockNumber, timestamp);
      if ranks[n] in items && items[ranks[n]].BundleItem?
         && (|| items[ranks[n]].bundle.blockNumber < blockNumber
             || (items[ranks[n]].bundle.maxTimestamp.Some?
                 && items[ranks[n]].bundle.maxTimestamp.value < timestamp))
      then ids + [items[ranks[n]].bundle.uuid] else ids
  }

  /** Cleaning disallows exactly those, in order. */
  lemma {:induction false} CleanedMemory(s: Store, ranks: seq<U128>, blockNumber: U64, timestamp: U64)
    requires forall i, j | 0 <= i < j < |ranks| :: ranks[i] < ranks[j]
    ensures CleanedAll(s, ranks, blockNumber, timestamp).disallowed
         == Lrus.PutAll(s.disallowed, ExpiredIds(s.items, ranks, blockNumber, timestamp), DISALLOWED_CAPACITY)
  {
    if ranks != [] {
      var n := |ranks| - 1;
      var ids := ExpiredIds(s.items, ranks[..n], blockNumber, timestamp);
      CleanedMemory(s, ranks[..n], blockNumber, timestamp);
      CleanedItems(s, ranks[..n], blockNumber, timestamp);
      if ranks[n] in s.items {
        assert (ids + [s.items[ranks[n]].Id()])[..|ids|] == ids;
      }
    }
  }

  /** `remove_and_disallow`. */
  function Disallowed(s: Store, r: U128): Store {
    if r !in s.items then s
    else
      var id := s.items[r].Id();
      Store(s.items - {r}, s.seen - {id}, Put(s.disallowed, id), s.lost)
  }

  /** The items at these ranks removed and disallowed, one after the other. */
  function DisallowedAll(s: Store, ranks: seq<U128>): Store {
    if ranks == [] then s
    else Disallowed(DisallowedAll(s, ranks[..|ranks| - 1]), ranks[|ranks| - 1])
  }

  lemma {:induction false} DisallowedItems(s: Store, ranks: seq<U128>)
    ensures forall r :: r in DisallowedAll(s, ranks).items <==> r in s.items && r !in ranks
    ensures forall r | r in DisallowedAll(s, ranks).items ::
              DisallowedAll(s, ranks).items[r] == s.items[r]
    ensures DisallowedAll(s, ranks).lost == s.lost
  {
    if ranks != [] {
      DisallowedItems(s, ranks[..|ranks| - 1]);
      assert ranks == ranks[..|ranks| - 1] + [ranks[|ranks| - 1]];
    }
  }

  /** The identifiers that disallowing these ranks puts into the memory, in order. */
  function DisallowedIds(s: Store, ranks: seq<U128>): seq<Identifier> {
    if ranks == [] then []
    else
      var n := |ranks| - 1;
      var ids, left := DisallowedIds(s, ranks[..n]), DisallowedAll(s, ranks[..n]).items;
      if ranks[n] in left then ids + [left[ranks[n]].Id()] else ids
  }

  lemma {:induction false} DisallowedMemory(s: Store, ranks: seq<U128>)
    ensures DisallowedAll(s, ranks).disallowed
         == Lrus.PutAll(s.disallowed, DisallowedIds(s, ranks), DISALLOWED_CAPACITY)
  {
    if ranks != [] {
      var n := |ranks| - 1;
      var ids, left := DisallowedIds(s, ranks[..n]), DisallowedAll(s, ranks[..n]).items;
      DisallowedMemory(s, ranks[..n]);
      if ranks[n] in left {
        assert (ids + [left[ranks[n]].Id()])[..|ids|] == ids;
      }
    }
  }

  /**
   What is disallowed afterwards: an identifier put there stays exactly as long as fewer
   than 128 others have been put there since.
   */
  lemma {:induction false} DisallowedFor(s: Store, ranks: seq<U128>, before: seq<Identifier>,
                                         id: Identifier, since: seq<Identifier>)
    requires Lrus.NoRepeats(s.disallowed) && |s.disallowed| <= DISALLOWED_CAPACITY
    requires DisallowedIds(s, ranks) == before + [id] + since && id !in since
    ensures id in DisallowedAll(s, ranks).disallowed <==>
            |Lrus.Elements(since)| < DISALLOWED_CAPACITY
  {
    DisallowedMemory(s, ranks);
    Lrus.StaysPut(s.disallowed, before, id, since, DISALLOWED_CAPACITY);
  }

  /** Cleaning disallows only what will be current in no later block. */
  lemma {:induction false} CleanedForGood(s: Store, ranks: seq<U128>, blockNumber: U64, timestamp: U64,
                                          id: Identifier, laterNumber: U64, laterTimestamp: U64)
    requires blockNumber <= laterNumber && timestamp <= laterTimestamp
    requires id in CleanedAll(s, ranks, blockNumber, timestamp).disallowed && id !in s.disallowed
    ensures exists r | r in s.items ::
              s.items[r].Id() == id && !Current(s.items[r], laterNumber, laterTimestamp)
  {
    var n := |ranks| - 1;
    var before := CleanedAll(s, ranks[..n], blockNumber, timestamp);
    if id in before.disallowed {
      CleanedForGood(s, ranks[..n], blockNumber, timestamp, id, laterNumber, laterTimestamp);
    } else {
      var r := ranks[n];
      CleanedItems(s, ranks[..n], blockNumber, timestamp);
      assert r in before.items && before.items[r] == s.items[r];
      ExpiredIsPermanent(s.items[r], blockNumber, timestamp, laterNumber, laterTimestamp);
    }
  }

  /** A whole read, in terms of the cache. */
  lemma {:induction false} ReadMeans(items: Items, cs: Candidates, source: StateSource, host: StateSource,
                                     n: nat, m: nat)
    requires IsSnapshot(cs, items) && StopsAt(cs, source, host, n, m)
    requires AllChecked(cs[..m], source, host)
    ensures var best, never := NowAmong(cs[..m], source, host), NeverAmong(cs[..m], source, host);
            && BestValid(items, source, host, n, best)
            && (forall r :: r in never <==>
                  r in items && ItemVerdict(items[r], source, host) == Ok(Never) && LookedAt(best, n, r))
            && (forall r | r in items && LookedAt(best, n, r) :: ItemVerdict(items[r], source, host).Ok?)
  {
    ReadIsBest(items, cs, source, host, n, m);
    forall r
      ensures r in NeverAmong(cs[..m], source, host) <==>
              && r in items && ItemVerdict(items[r], source, host) == Ok(Never)
              && LookedAt(NowAmong(cs[..m], source, host), n, r)
    {
      ReadRemoves(items, cs, source, host, n, m, r);
    }
    forall r | r in items && LookedAt(NowAmong(cs[..m], source, host), n, r)
      ensures ItemVerdict(items[r], source, host).Ok?
    {
      ReadChecks(items, cs, source, host, n, m, r);
    }
  }

  class CacheStore {
    const capacity: nat
    var items: Items
    var seen: set<Identifier>
    var disallowed: seq<Identifier>
    ghost var lost: set<Identifier>

    ghost predicate Valid()
      reads this
    {
      && Consistent(items, seen, disallowed, lost)
      && |items| <= Max(capacity, 1)
    }

    ghost function State(): Store
      reads this
    {
      Store(items, seen, disallowed, lost)
    }

    constructor (capacity: nat)
      ensures Valid() && this.capacity == capacity && items == map[] && disallowed == []
      ensures seen == {} && lost == {}
    {
      this.capacity := capacity;
      items, seen, disallowed, lost := map[], {}, [], {};
    }

    method FindRank(fee: U128) returns (rank: U128)
      ensures TakesRank(items, fee, rank)
    {
      rank := fee;
      while rank in items && rank != 0
        invariant rank <= fee && forall q | rank < q <= fee :: q in items
      {
        rank := rank - 1;
      }
    }

    /** At capacity, drops the lowest rank and forgets its identifier. */
    method MakeRoom()
      requires Consistent(items, seen, disallowed, lost)
      modifies this`items, this`seen
      ensures Consistent(items, seen, disallowed, lost)
      ensures Evicted(old(items), capacity, items)
      ensures seen <= old(seen)
      ensures |old(items)| < capacity || old(items) == map[] ==> unchanged(this)
      ensures |old(items)| >= capacity && old(items) != map[] ==>
                exists lo | lo in old(items) ::
                  && (forall q | q in old(items) :: lo <= q)
                  && items == old(items) - {lo} && seen == old(seen) - {old(items)[lo].Id()}
    {
      if |items| >= capacity && items.Keys != {} {
        var lo := Lowest(items.Keys);
        RemoveKeeps(items, seen, disallowed, lost, lo);
        seen := seen - {items[lo].Id()};
        items := items - {lo};
      }
    }

    /** Nothing for an item that is disallowed or seen; any other gets the rank returned. */
    method AddInner(fee: U128, item: SimItem) returns (ghost at: U128)
      requires Valid()
      modifies this`items, this`seen, this`lost
      ensures Valid() && |items| <= |old(items)| + 1
      ensures Added(old(State()), capacity, fee, item, State())
      ensures item.Id() in old(disallowed) || item.Id() in old(seen) ==> unchanged(this)
      ensures item.Id() !in old(disallowed) && item.Id() !in old(seen) ==>
                && at <= fee && (forall q | at < q <= fee :: q in old(items))
                && (at in old(items) ==> at == 0)
                && at in items && items[at] == item && item.Id() in seen
                && (|old(items)| < capacity || old(items) == map[] ==>
                    items == old(items)[at := item] && seen == old(seen) + {item.Id()})
                && (|old(items)| >= capacity && old(items) != map[] ==>
                    exists lo | lo in old(items) ::
                      && (forall q | q in old(items) :: lo <= q)
                      && items == (old(items) - {lo})[at := item]
                      && seen == old(seen) - {old(items)[lo].Id()} + {item.Id()})
    {
      at := 0;
      if item.Id() in disallowed {
        return;
      }
      if item.Id() in seen {
        return;
      }
      var rank := FindRank(fee);
      at := rank;
      MakeRoom();
      Place(rank, item);
    }

    /** Stores the item, over another one if there is one at this rank. */
    method Place(rank: U128, item: SimItem)
      requires Consistent(items, seen, disallowed, lost)
      requires item.Id() !in seen && item.Id() !in disallowed
      modifies this`items, this`seen, this`lost
      ensures Consistent(items, seen, disallowed, lost)
      ensures items == old(items)[rank := item] && seen == old(seen) + {item.Id()}
      ensures lost == if rank in old(items) then old(lost) + {old(items)[rank].Id()} else old(lost)
    {
      InsertKeeps(items, seen, disallowed, lost, rank, item);
      seen := seen + {item.Id()};
      if rank in items {
        lost := lost + {items[rank].Id()};
      }
      items := items[rank := item];
    }

    /** `add_txs` and `add_bundles`. */
    method AddAll(offers: seq<Offer>)
      requires Valid()
      modifies this`items, this`seen, this`lost
      ensures Valid() && |items| <= |old(items)| + |offers|
      ensures AddedAll(old(State()), capacity, offers, State())
    {
      for i := 0 to |offers|
        invariant Valid() && |items| <= |old(items)| + i
        invariant AddedAll(old(State()), capacity, offers[..i], State())
      {
        ghost var before := State();
        ghost var _ := AddInner(offers[i].fee, offers[i].item);
        AddedMore(old(State()), capacity, offers, i, before, State());
      }
      assert offers[..|offers|] == offers;
    }

    /** `remove`: the item goes, and may be added again. */
    method Remove(rank: U128) returns (removed: Option<SimItem>)
      requires Valid()
      modifies this`items, this`seen
      ensures Valid()
      ensures rank !in old(items) ==> removed == None && items == old(items) && seen == old(seen)
      ensures rank in old(items) ==>
                && removed == Some(old(items)[rank])
                && items == old(items) - {rank} && seen == old(seen) - {old(items)[rank].Id()}
    {
      if rank !in items {
        return None;
      }
      RemoveKeeps(items, seen, disallowed, lost, rank);
      removed := Some(items[rank]);
      seen := seen - {items[rank].Id()};
      items := items - {rank};
    }

    /** `remove_and_disallow`: the item goes, and is refused for a while. */
    method RemoveAndDisallow(rank: U128) returns (removed: Option<SimItem>)
      requires Valid()
      modifies this`items, this`seen, this`disallowed
      ensures Valid()
      ensures State() == Disallowed(old(State()), rank)
      ensures removed == if rank in old(items) then Some(old(items)[rank]) else None
    {
      if rank in items {
        RemoveKeeps(items, seen, disallowed, lost, rank);
      }
      removed := Remove(rank);
      if removed.Some? {
        DisallowKeeps(items, seen, disallowed, lost, removed.value.Id());
        disallowed := Put(disallowed, removed.value.Id());
      }
    }

    method Clear()
      modifies this`items, this`seen, this`lost
      requires Valid()
      ensures Valid() && items == map[] && seen == {} && lost == {}
    {
      items, seen, lost := map[], {}, {};
    }

    /** All items with their ranks, best first. */
    method Snapshot() returns (cs: Candidates)
      ensures IsSnapshot(cs, items)
    {
      var up := Ascending(items.Keys);
      cs := [];
      for k := 0 to |up|
        invariant Descends(cs) && |cs| == k
        invariant forall c | c in cs :: c.rank in items && items[c.rank] == c.item
        invariant forall r | r in up[|up| - k..] :: Ranked(r, items[r]) in cs
        invariant k > 0 ==> cs[k - 1].rank == up[|up| - k]
      {
        var r := up[|up| - 1 - k];
        assert up[|up| - k - 1..] == [r] + up[|up| - k..];
        assert r in up;
        var c := Ranked(r, items[r]);
        assert (cs + [c])[..k] == cs;
        cs := cs + [c];
      }
      assert up[0..] == up;
    }

    /**
     `read_best_valid`: the best `n` items valid now; of the items looked at, exactly
     those that can never be valid are removed and disallowed.  When the source fails
     nothing changes.
     */
    method ReadBestValid(n: nat, source: StateSource, host: StateSource)
      returns (result: Result<Candidates, SourceError>, ghost cs: Candidates, ghost m: nat)
      requires Valid()
      modifies this`items, this`seen, this`disallowed
      ensures Valid() && IsSnapshot(cs, old(items)) && m <= |cs|
      ensures result.Ok? ==>
                && StopsAt(cs, source, host, n, m)
                && result.value == NowAmong(cs[..m], source, host)
                && State() == DisallowedAll(old(State()), NeverAmong(cs[..m], source, host))
      ensures result.Err? ==>
                && unchanged(this)
                && m < |cs| && ItemVerdict(cs[m].item, source, host) == Err(result.error)
      ensures result.Ok? ==>
                && BestValid(old(items), source, host, n, result.value)
                && (forall r :: r in items <==>
                      && r in old(items)
                      && !(LookedAt(result.value, n, r)
                           && ItemVerdict(old(items)[r], source, host) == Ok(Never)))
                && (forall r | r in items :: items[r] == old(items)[r])
                && (forall r | r in old(items) && LookedAt(result.value, n, r) ::
                      ItemVerdict(old(items)[r], source, host).Ok?)
      ensures result.Err? ==>
                exists r | r in old(items) :: ItemVerdict(old(items)[r], source, host) == Err(result.error)
    {
      var candidates := Snapshot();
      cs := candidates;
      var error, valid, never;
      error, valid, never, m := Examine(candidates, n, source, host);
      if error.Some? {
        return Err(error.value), cs, m;
      }
      RemoveAll(never);
      result := Ok(valid);
      ReadMeans(old(items), cs, source, host, n, m);
      DisallowedItems(old(State()), never);
    }

    method RemoveAll(ranks: seq<U128>)
      requires Valid()
      modifies this`items, this`seen, this`disallowed
      ensures Valid() && State() == DisallowedAll(old(State()), ranks)
    {
      for k := 0 to |ranks|
        invariant Valid() && State() == DisallowedAll(old(State()), ranks[..k])
      {
        var _ := RemoveAndDisallow(ranks[k]);
        assert ranks[..k + 1][..k] == ranks[..k];
      }
      assert ranks[..|ranks|] == ranks;
    }

    /** The first half of `clean`: the lowest ranks above capacity are dropped and disallowed. */
    method Trim()
      requires Valid()
      modifies this`items, this`seen, this`disallowed
      ensures Valid() && |items| <= capacity
      ensures |old(items)| <= capacity ==> unchanged(this)
      ensures |old(items)| > capacity ==>
                exists r | r in old(items) :: State() == Disallowed(old(State()), r) && items == map[]
    {
      while |items| > capacity
        invariant Valid()
        invariant unchanged(this) ||
                  (|old(items)| > capacity && items == map[] &&
                   exists r | r in old(items) :: State() == Disallowed(old(State()), r))
        decreases |items|
      {
        var lo := Lowest(items.Keys);
        assert |items - {lo}| == 0;
        var _ := RemoveAndDisallow(lo);
      }
    }

    /**
     `clean`: after trimming, bundles that are not current go; those that have expired
     are disallowed as well, lowest rank first.
     */
    method Clean(blockNumber: U64, timestamp: U64) returns (ghost trimmed: Store, ghost order: seq<U128>)
      requires Valid()
      modifies this`items, this`seen, this`disallowed
      ensures Valid() && |items| <= capacity
      ensures |old(items)| <= capacity ==> trimmed == old(State())
      ensures |old(items)| > capacity ==>
                exists r | r in old(items) ::
                  trimmed == Disallowed(old(State()), r) && trimmed.items == map[]
      ensures IsAscending(order, trimmed.items.Keys)
      ensures State() == CleanedAll(trimmed, order, blockNumber, timestamp)
      ensures forall r :: r in items <==>
                r in trimmed.items && Current(trimmed.items[r], blockNumber, timestamp)
      ensures forall r :: r in items <==>
                && |old(items)| <= capacity && r in old(items)
                && (old(items)[r].BundleItem? ==>
                    var b := old(items)[r].bundle;
                    && b.blockNumber == blockNumber
                    && (b.minTimestamp.Some? ==> b.minTimestamp.value <= timestamp)
                    && (b.maxTimestamp.Some? ==> timestamp <= b.maxTimestamp.value))
      ensures forall r | r in items :: items[r] == old(items)[r]
      ensures disallowed == Lrus.PutAll(trimmed.disallowed,
                                        ExpiredIds(trimmed.items, order, blockNumber, timestamp),
                                        DISALLOWED_CAPACITY)
    {
      Trim();
      trimmed := State();
      var up := Ascending(items.Keys);
      order := up;
      for k := 0 to |up|
        invariant Valid() && State() == CleanedAll(trimmed, up[..k], blockNumber, timestamp)
      {
        CleanOne(up[k], blockNumber, timestamp);
        assert up[..k + 1][..k] == up[..k];
      }
      assert up[..|up|] == up;
      CleanedItems(trimmed, up, blockNumber, timestamp);
      CleanedMemory(trimmed, up, blockNumber, timestamp);
      SubsetSize(items.Keys, trimmed.items.Keys);
    }

    method CleanOne(r: U128, blockNumber: U64, timestamp: U64)
      requires Valid()
      modifies this`items, this`seen, this`disallowed
      ensures Valid() && State() == Cleaned(old(State()), r, blockNumber, timestamp)
    {
      if r in items && !Current(items[r], blockNumber, timestamp) {
        var never := Expired(items[r], blockNumber, timestamp);
        var removed := Remove(r);
        if never {
          DisallowKeeps(items, seen, disallowed, lost, removed.value.Id());
          disallowed := Put(disallowed, removed.value.Id());
        }
      }
    }
  }

  lemma {:induction false} SubsetSize<T>(x: set<T>, y: set<T>)
    requires x <= y
    ensures |x| <= |y|
  {
    assert x + (y - x) == y;
  }
}
