/** The hits of one board for a coincidence builder: bounded, optional, and accounted for to the last one. */
module HitTaps {
  import opened Stamping
  import opened EventRanges

  datatype Hit = Hit(timePs: int, energy: nat, channel: nat, flags: nat)

  /** The PHA energy, or the PSD long charge. */
  function FromEvent(e: DecodedEvent): Hit {
    Hit(e.timePs, if e.energy != 0 then e.energy else e.qlong, e.channel % 0x100,
        (if e.pileup then 1 else 0) + (if e.satu then 2 else 0) + (if e.lost then 4 else 0))
  }

  /** The record keeps the time, the channel and all three flags apart, and fits its fields. */
  lemma HitTellsEvent(e: DecodedEvent)
    requires DecodedInRange(e)
    ensures var h := FromEvent(e);
            && h.timePs == e.timePs && h.channel == e.channel && h.energy < 0x1_0000 && h.flags < 8
            && (h.flags % 2 == 1 <==> e.pileup) && (h.flags / 2 % 2 == 1 <==> e.satu) && (h.flags / 4 == 1 <==> e.lost)
            && (h.energy == 0 <==> e.energy == 0 && e.qlong == 0)
            && (e.qlong == 0 ==> h.energy == e.energy) && (e.energy == 0 ==> h.energy == e.qlong)
            && (h.energy == e.energy || h.energy == e.qlong)
  {
  }

  // ----- in-order subsequences -----

  /** `a` can be had from `b` by leaving some out. */
  ghost predicate Subsequence<T>(a: seq<T>, b: seq<T>) {
    if a == [] then true
    else b != [] && ((a[0] == b[0] && Subsequence(a[1..], b[1..])) || Subsequence(a, b[1..]))
  }

  lemma {:induction false} SubsequenceJoin<T>(a: seq<T>, b: seq<T>, c: seq<T>, d: seq<T>)
    requires Subsequence(a, b) && Subsequence(c, d)
    ensures Subsequence(a + c, b + d)
    decreases |b|
  {
    if a == [] {
      assert a + c == c;
      SubsequenceAfter(c, b, d);
    } else if a[0] == b[0] && Subsequence(a[1..], b[1..]) {
      SubsequenceJoin(a[1..], b[1..], c, d);
      assert (a + c)[1..] == a[1..] + c && (b + d)[1..] == b[1..] + d;
    } else {
      SubsequenceJoin(a, b[1..], c, d);
      assert (b + d)[1..] == b[1..] + d;
    }
  }

  lemma {:induction false} SubsequenceAfter<T>(c: seq<T>, b: seq<T>, d: seq<T>)
    requires Subsequence(c, d)
    ensures Subsequence(c, b + d)
    decreases |b|
  {
    if b == [] {
      assert b + d == d;
    } else {
      SubsequenceAfter(c, b[1..], d);
      assert (b + d)[1..] == b[1..] + d;
    }
  }

  lemma {:induction false} PrefixIsSubsequence<T>(a: seq<T>, n: nat)
    requires n <= |a|
    ensures Subsequence(a[..n], a)
    decreases |a|
  {
    if n > 0 {
      PrefixIsSubsequence(a[1..], n - 1);
      assert a[..n][1..] == a[1..][..n - 1];
    }
  }

  lemma {:induction false} ShorterIsSubsequence<T>(a: seq<T>, c: seq<T>, b: seq<T>)
    requires Subsequence(a + c, b)
    ensures Subsequence(a, b)
    decreases |b|
  {
    if a != [] {
      assert (a + c)[1..] == a[1..] + c;
      if (a + c)[0] == b[0] && Subsequence(a[1..] + c, b[1..]) {
        ShorterIsSubsequence(a[1..], c, b[1..]);
      } else {
        ShorterIsSubsequence(a, c, b[1..]);
      }
    }
  }

  // ----- the tap -----

  const DEFAULT_CAPACITY: nat := 0x10_0000

  class HitTap {
    var enabled: bool
    var capacity: nat
    var hits: seq<Hit>
    var dropped: nat
    ghost var offered: seq<Hit>     // appended while enabled
    ghost var taken: seq<Hit>
    ghost var discarded: nat        // cleared by switching the tap off

    /** What was taken and what is held are offered hits in their order; every offered hit is taken, held,
        dropped or discarded. */
    ghost predicate Valid()
      reads this
    {
      && Subsequence(taken + hits, offered)
      && |offered| == |taken| + |hits| + dropped + discarded
      && (!enabled ==> hits == [])
      && capacity > 0
    }

    constructor ()
      ensures Valid() && !enabled && capacity == DEFAULT_CAPACITY && offered == [] && taken == []
    {
      enabled, capacity, hits, dropped := false, DEFAULT_CAPACITY, [], 0;
      offered, taken, discarded := [], [], 0;
    }

    method SetEnabled(on: bool)
      requires Valid()
      modifies `enabled, `hits, `discarded
      ensures Valid() && enabled == on
      ensures hits == if on then old(hits) else []
      ensures discarded == old(discarded) + if on then 0 else |old(hits)|
    {
      enabled := on;
      if !on {
        ShorterIsSubsequence(taken, hits, offered);
        discarded := discarded + |hits|;
        hits := [];
        assert taken + [] == taken;
      }
    }

    method SetCapacity(n: nat)
      requires Valid()
      modifies `capacity
      ensures Valid() && capacity == if n == 0 then 1 else n
    {
      capacity := if n > 0 then n else 1;
    }

    /** A prefix of the batch is kept, as long as there is room; the rest is counted as dropped. */
    method Append(batch: seq<Hit>)
      requires Valid()
      modifies `hits, `dropped, `offered
      ensures Valid()
      ensures !enabled ==> hits == old(hits) && dropped == old(dropped) && offered == old(offered)
      ensures enabled ==>
                var room := if capacity > |old(hits)| then capacity - |old(hits)| else 0;
                var n := if |batch| < room then |batch| else room;
                && offered == old(offered) + batch
                && hits == old(hits) + batch[..n] && dropped == old(dropped) + |batch| - n
                && (n < |batch| ==> |hits| >= capacity)
    {
      if batch == [] {
        assert hits + batch[..0] == hits && offered + batch == offered;
        return;
      }
      if !enabled {
        return;
      }
      var room := if capacity > |hits| then capacity - |hits| else 0;
      var n := if |batch| < room then |batch| else room;
      PrefixIsSubsequence(batch, n);
      SubsequenceJoin(taken + hits, offered, batch[..n], batch);
      assert (taken + hits) + batch[..n] == taken + (hits + batch[..n]);
      hits := hits + batch[..n];
      dropped := dropped + |batch| - n;
      offered := offered + batch;
    }

    /** Everything since the last take, in decode order. */
    method Take() returns (out: seq<Hit>)
      requires Valid()
      modifies `hits, `taken
      ensures Valid() && out == old(hits) && hits == [] && taken == old(taken) + out
    {
      out := hits;
      hits := [];
      taken := taken + out;
      assert taken + [] == taken;
    }
  }
}
