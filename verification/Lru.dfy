/** A bounded memory of the things put into it last, as `lru::LruCache` keeps its keys. */
module Lrus {
  import opened Words
  import opened Validity

  /** No element twice. */
  predicate NoRepeats(xs: seq<Identifier>) {
    xs == [] || (xs[|xs| - 1] !in xs[..|xs| - 1] && NoRepeats(xs[..|xs| - 1]))
  }

  function Without(xs: seq<Identifier>, x: Identifier): (rest: seq<Identifier>)
    ensures forall y :: y in rest <==> y in xs && y != x
    ensures |rest| <= |xs|
  {
    if xs == [] then []
    else
      var n := |xs| - 1;
      assert xs == xs[..n] + [xs[n]];
      if xs[n] == x then Without(xs[..n], x) else Without(xs[..n], x) + [xs[n]]
  }

  /** `put`: the newest comes first; the oldest falls out when there is no room. */
  function Put(lru: seq<Identifier>, x: Identifier, capacity: nat): (after: seq<Identifier>)
    requires 0 < capacity
    ensures forall y :: y in after ==> y in lru || y == x
    ensures x in after
    ensures |lru| <= capacity ==> |after| <= capacity
  {
    var others := Without(lru, x);
    if |others| < capacity then [x] + others else [x] + others[..|others| - 1]
  }

  function PutAll(lru: seq<Identifier>, xs: seq<Identifier>, capacity: nat): seq<Identifier>
    requires 0 < capacity
  {
    if xs == [] then lru else Put(PutAll(lru, xs[..|xs| - 1], capacity), xs[|xs| - 1], capacity)
  }

  /** The same without a bound: everything ever put, by how recently it was. */
  function Recency(lru: seq<Identifier>, xs: seq<Identifier>): seq<Identifier> {
    if xs == [] then lru
    else [xs[|xs| - 1]] + Without(Recency(lru, xs[..|xs| - 1]), xs[|xs| - 1])
  }

  function First(xs: seq<Identifier>, n: nat): (first: seq<Identifier>)
    ensures |first| == Min(|xs|, n)
  {
    xs[..Min(|xs|, n)]
  }

  // ---- removing from lists ----

  lemma {:induction false} WithoutAppend(xs: seq<Identifier>, ys: seq<Identifier>, x: Identifier)
    ensures Without(xs + ys, x) == Without(xs, x) + Without(ys, x)
  {
    if ys == [] {
      assert xs + ys == xs;
    } else {
      WithoutAppend(xs, ys[..|ys| - 1], x);
      assert (xs + ys)[..|xs + ys| - 1] == xs + ys[..|ys| - 1];
    }
  }

  lemma {:induction false} WithoutAbsent(xs: seq<Identifier>, x: Identifier)
    requires x !in xs
    ensures Without(xs, x) == xs
  {
    if xs != [] {
      assert xs == xs[..|xs| - 1] + [xs[|xs| - 1]];
      WithoutAbsent(xs[..|xs| - 1], x);
    }
  }

  lemma {:induction false} NoRepeatsAppend(xs: seq<Identifier>, ys: seq<Identifier>)
    ensures NoRepeats(xs + ys) <==>
            NoRepeats(xs) && NoRepeats(ys) && forall x :: !(x in xs && x in ys)
  {
    if ys == [] {
      assert xs + ys == xs;
    } else {
      var n := |ys| - 1;
      NoRepeatsAppend(xs, ys[..n]);
      assert (xs + ys)[..|xs + ys| - 1] == xs + ys[..n];
      assert ys == ys[..n] + [ys[n]];
    }
  }

  lemma {:induction false} SnocDistinct(xs: seq<Identifier>, x: Identifier)
    requires NoRepeats(xs) && x !in xs
    ensures NoRepeats(xs + [x])
  {
    assert (xs + [x])[..|xs|] == xs;
  }

  lemma {:induction false} WithoutDistinct(xs: seq<Identifier>, x: Identifier)
    requires NoRepeats(xs)
    ensures NoRepeats(Without(xs, x))
    ensures |Without(xs, x)| == if x in xs then |xs| - 1 else |xs|
  {
    if xs != [] {
      var n := |xs| - 1;
      assert xs == xs[..n] + [xs[n]];
      WithoutDistinct(xs[..n], x);
      if xs[n] == x {
        WithoutAbsent(xs[..n], x);
      } else {
        SnocDistinct(Without(xs[..n], x), xs[n]);
      }
    }
  }

  lemma {:induction false} FrontDistinct(x: Identifier, xs: seq<Identifier>)
    requires NoRepeats(xs) && x !in xs
    ensures NoRepeats([x] + xs)
  {
    NoRepeatsAppend([x], xs);
    assert [x][..0] == [];
  }

  lemma {:induction false} RecencyDistinct(lru: seq<Identifier>, xs: seq<Identifier>)
    requires NoRepeats(lru)
    ensures NoRepeats(Recency(lru, xs))
  {
    if xs != [] {
      var n := |xs| - 1;
      RecencyDistinct(lru, xs[..n]);
      WithoutDistinct(Recency(lru, xs[..n]), xs[n]);
      FrontDistinct(xs[n], Without(Recency(lru, xs[..n]), xs[n]));
    }
  }

  // ---- what the memory holds ----

  /** Putting into the bounded list is putting into the unbounded one and cutting it. */
  lemma {:induction false} PutFirst(all: seq<Identifier>, x: Identifier, capacity: nat)
    requires 0 < capacity && NoRepeats(all)
    ensures Put(First(all, capacity), x, capacity) == First([x] + Without(all, x), capacity)
  {
    var n := Min(|all|, capacity);
    var head, tail := all[..n], all[n..];
    assert all == head + tail;
    NoRepeatsAppend(head, tail);
    WithoutAppend(head, tail, x);
    WithoutDistinct(head, x);
    if x in head {
      WithoutAbsent(tail, x);
      CutFront(x, Without(head, x), tail, capacity);
    } else {
      WithoutAbsent(head, x);
      CutFront(x, head, Without(tail, x), capacity);
    }
  }

  /** One more in front of a list that fills the memory, or nearly so. */
  lemma {:induction false} CutFront(x: Identifier, kept: seq<Identifier>, rest: seq<Identifier>, capacity: nat)
    requires |kept| == capacity || |kept| + 1 == capacity || (|kept| < capacity && rest == [])
    ensures First([x] + (kept + rest), capacity)
         == if |kept| < capacity then [x] + kept else First([x] + kept, capacity)
  {
  }

  lemma {:induction false} PutDistinct(lru: seq<Identifier>, x: Identifier, capacity: nat)
    requires 0 < capacity && NoRepeats(lru) && |lru| <= capacity
    ensures NoRepeats(Put(lru, x, capacity))
  {
    var all := [x] + Without(lru, x);
    assert First(lru, capacity) == lru;
    PutFirst(lru, x, capacity);
    WithoutDistinct(lru, x);
    FrontDistinct(x, Without(lru, x));
    var n := Min(|all|, capacity);
    assert all == all[..n] + all[n..];
    NoRepeatsAppend(all[..n], all[n..]);
  }

  /** The memory holds the most recent ones, in order, as many as fit. */
  lemma {:induction false} PutAllIsRecency(lru: seq<Identifier>, xs: seq<Identifier>, capacity: nat)
    requires 0 < capacity && NoRepeats(lru) && |lru| <= capacity
    ensures PutAll(lru, xs, capacity) == First(Recency(lru, xs), capacity)
  {
    if xs != [] {
      var n := |xs| - 1;
      PutAllIsRecency(lru, xs[..n], capacity);
      RecencyDistinct(lru, xs[..n]);
      PutFirst(Recency(lru, xs[..n]), xs[n], capacity);
    }
  }

  function Elements(xs: seq<Identifier>): (s: set<Identifier>)
    ensures forall x :: x in s <==> x in xs
  {
    set x | x in xs
  }

  /** Another one moves to the front and leaves the rest around `x` as it was. */
  lemma {:induction false} MoveToFront(ahead: seq<Identifier>, x: Identifier, behind: seq<Identifier>, y: Identifier)
    requires y != x
    ensures [y] + Without(ahead + [x] + behind, y) == ([y] + Without(ahead, y)) + [x] + Without(behind, y)
  {
    WithoutAppend(ahead + [x], behind, y);
    WithoutAppend(ahead, [x], y);
    WithoutAbsent([x], y);
  }

  lemma {:induction false} OneMoreAhead(ahead: seq<Identifier>, y: Identifier)
    requires NoRepeats(ahead) && |ahead| == |Elements(ahead)|
    ensures Elements([y] + Without(ahead, y)) == Elements(ahead) + {y}
    ensures |[y] + Without(ahead, y)| == |Elements(ahead) + {y}|
  {
    WithoutDistinct(ahead, y);
    if y in ahead {
      assert Elements(ahead) + {y} == Elements(ahead);
    }
  }

  /** In `all`, exactly the elements of `since` are ahead of `x`, each once. */
  ghost predicate Splits(all: seq<Identifier>, ahead: seq<Identifier>, x: Identifier,
                         behind: seq<Identifier>, since: set<Identifier>) {
    && all == ahead + [x] + behind && x !in ahead && x !in behind
    && Elements(ahead) == since && |ahead| == |since|
  }

  lemma {:induction false} SplitStep(all: seq<Identifier>, ahead: seq<Identifier>, x: Identifier,
                                     behind: seq<Identifier>, since: set<Identifier>, y: Identifier)
    requires NoRepeats(all) && Splits(all, ahead, x, behind, since) && y != x
    ensures Splits([y] + Without(all, y), [y] + Without(ahead, y), x, Without(behind, y), since + {y})
  {
    NoRepeatsAppend(ahead + [x], behind);
    NoRepeatsAppend(ahead, [x]);
    MoveToFront(ahead, x, behind, y);
    OneMoreAhead(ahead, y);
  }

  lemma {:induction false} RecencySnoc(lru: seq<Identifier>, xs: seq<Identifier>, x: Identifier)
    ensures Recency(lru, xs + [x]) == [x] + Without(Recency(lru, xs), x)
  {
    assert (xs + [x])[..|xs|] == xs;
  }

  lemma {:induction false} SplitAt(lru: seq<Identifier>, xs: seq<Identifier>, x: Identifier,
                                   since: seq<Identifier>)
    returns (ahead: seq<Identifier>, behind: seq<Identifier>)
    requires NoRepeats(lru) && x !in since
    ensures Splits(Recency(lru, xs + [x] + since), ahead, x, behind, Elements(since))
  {
    if since == [] {
      assert xs + [x] + since == xs + [x];
      RecencySnoc(lru, xs, x);
      ahead, behind := [], Without(Recency(lru, xs), x);
    } else {
      var n := |since| - 1;
      var y, before := since[n], xs + [x] + since[..n];
      assert since == since[..n] + [y];
      assert xs + [x] + since == before + [y];
      ahead, behind := SplitAt(lru, xs, x, since[..n]);
      RecencyDistinct(lru, before);
      RecencySnoc(lru, before, y);
      SplitStep(Recency(lru, before), ahead, x, behind, Elements(since[..n]), y);
      ahead, behind := [y] + Without(ahead, y), Without(behind, y);
      assert Elements(since) == Elements(since[..n]) + {y};
    }
  }

  /** What was put stays for exactly as long as fewer than `capacity` others were put since. */
  lemma {:induction false} StaysPut(lru: seq<Identifier>, xs: seq<Identifier>, x: Identifier,
                                    since: seq<Identifier>, capacity: nat)
    requires 0 < capacity && NoRepeats(lru) && |lru| <= capacity && x !in since
    ensures x in PutAll(lru, xs + [x] + since, capacity) <==> |Elements(since)| < capacity
  {
    PutAllIsRecency(lru, xs + [x] + since, capacity);
    var ahead, behind := SplitAt(lru, xs, x, since);
    var all := ahead + [x] + behind;
    assert all[|ahead|] == x;
    assert forall i | 0 <= i < |all| && i != |ahead| :: all[i] != x;
  }
}
