/** Placing a wrapping counter in time: the board clock, and when the unwrapping is exact. */
module Clocks {
  import opened Words
  import opened Arithmetic

  /** The epoch counts wraps of one counter width; `reference` is the latest time returned. */
  datatype ChannelClock = ChannelClock(epoch: nat, reference: nat, seen: bool)

  const FRESH := ChannelClock(0, 0, false)

  function U64(x: int): (u: nat)
    ensures u < TWO64
  {
    x % TWO64
  }

  /** The two's-complement reading of a 64-bit pattern. */
  function I64(x: nat): int
    requires x < TWO64
  {
    if x < TWO63 then x else x - TWO64
  }

  function Distance(a: int, b: int): nat { if a > b then a - b else b - a }

  // ----- the code's search over candidate epochs -----

  /** The time a counter value means in a given epoch, as 64-bit arithmetic computes it. */
  function InEpoch(raw: nat, range: nat, epoch: nat): nat {
    U64(raw + Periods(epoch, range))
  }

  /** The epoch left standing when the candidates from `cand` up to epoch + 1 have been tried. */
  function Scan(c: ChannelClock, raw: nat, range: nat, cand: nat, best: nat, bestDist: nat): nat
    decreases c.epoch + 2 - cand
  {
    if cand > c.epoch + 1 || !c.seen then best
    else
      var d := Distance(InEpoch(raw, range, cand), c.reference);
      if d < bestDist then Scan(c, raw, range, cand + 1, cand, d)
      else Scan(c, raw, range, cand + 1, best, bestDist)
  }

  function BestEpoch(c: ChannelClock, raw: nat, range: nat): nat {
    Scan(c, raw, range, if c.epoch > 0 then c.epoch - 1 else 0, c.epoch, TWO64 - 1)
  }

  function UnwrappedTime(c: ChannelClock, raw: nat, width: nat): nat {
    if width >= 64 then raw else InEpoch(raw, Pow2(width), BestEpoch(c, raw, Pow2(width)))
  }

  /** The clock after placing `raw`. */
  function Ticked(c: ChannelClock, raw: nat, width: nat): ChannelClock {
    var full := UnwrappedTime(c, raw, width);
    var best := if width >= 64 then c.epoch else BestEpoch(c, raw, Pow2(width));
    ChannelClock(if best > c.epoch then best else c.epoch, if full > c.reference then full else c.reference, true)
  }

  method Unwrap(c: ChannelClock, raw: nat, width: nat) returns (full: nat, c': ChannelClock)
    ensures full == UnwrappedTime(c, raw, width)
    ensures c' == Ticked(c, raw, width)
    ensures c'.seen && c'.reference == if full > c.reference then full else c.reference
    ensures width >= 64 || !c.seen ==> c'.epoch == c.epoch
    ensures width >= 64 ==> full == raw
  {
    hide Pow2, Distance, U64, Periods;
    c', full := c, raw;
    if width < 64 {
      var range := Pow2(width);
      var lowest := if c.epoch > 0 then c.epoch - 1 else 0;
      var best: nat, bestDist: nat := c.epoch, TWO64 - 1;
      var cand := lowest;
      while cand <= c.epoch + 1 && c.seen
        invariant lowest <= cand <= c.epoch + 2
        invariant Scan(c, raw, range, cand, best, bestDist) == BestEpoch(c, raw, range)
      {
        PeriodsIsProduct(cand, range);
        var f := U64(raw + cand * range);
        var d := Distance(f, c.reference);
        if d < bestDist {
          bestDist, best := d, cand;
        }
        cand := cand + 1;
      }
      if best > c'.epoch {
        c' := c'.(epoch := best);
      }
      PeriodsIsProduct(best, range);
      full := U64(raw + best * range);
    }
    c' := c'.(seen := true);
    if full > c'.reference {
      c' := c'.(reference := full);
    }
  }

  // ----- reachable clocks -----

  /** The invariant of a clock read with one counter width: the epoch is that of the reference. */
  ghost predicate ClockInv(c: ChannelClock, range: nat) {
    if c.seen then Periods(c.epoch, range) <= c.reference < Periods(c.epoch + 1, range)
    else c == FRESH
  }

  /** Room for one more wrap below 2^64, so that no sum in the search wraps around. */
  ghost predicate Room(c: ChannelClock, range: nat) {
    c.reference + 2 * range < TWO64
  }

  /** `full` is no farther from `ref` than `other`, and the earlier of the two on a tie. */
  ghost predicate Closest(full: nat, other: nat, ref: nat) {
    Distance(full, ref) < Distance(other, ref) || (Distance(full, ref) == Distance(other, ref) && full <= other)
  }

  /** Of all non-negative times the counter value could mean, `full` is the closest to `ref`. */
  ghost predicate Nearest(full: nat, raw: nat, range: nat, ref: nat) {
    && (exists k: nat :: full == raw + Periods(k, range))
    && forall k: nat :: Closest(full, raw + Periods(k, range), ref)
  }

  /** The search unrolled: previous epoch (if any), current, next; a later one must be strictly closer. */
  lemma SearchOrder(c: ChannelClock, raw: nat, range: nat, d0: nat, d1: nat, d2: nat)
    requires c.seen
    requires d1 == Distance(InEpoch(raw, range, c.epoch), c.reference)
    requires d2 == Distance(InEpoch(raw, range, c.epoch + 1), c.reference)
    requires c.epoch > 0 ==> d0 == Distance(InEpoch(raw, range, c.epoch - 1), c.reference)
    requires d0 < TWO64 - 1 && d1 < TWO64 - 1
    ensures BestEpoch(c, raw, range) ==
            if c.epoch == 0 || d1 < d0 then (if d2 < d1 then c.epoch + 1 else c.epoch)
            else (if d2 < d0 then c.epoch + 1 else c.epoch - 1)
  {
    var e := c.epoch;
    if e > 0 {
      ScanStep(c, raw, range, e - 1, e, TWO64 - 1);
      ScanStep(c, raw, range, e, e - 1, d0);
      ScanStep(c, raw, range, e + 1, if d1 < d0 then e else e - 1, if d1 < d0 then d1 else d0);
    } else {
      ScanStep(c, raw, range, 0, 0, TWO64 - 1);
      ScanStep(c, raw, range, 1, 0, d1);
    }
  }

  lemma ScanStep(c: ChannelClock, raw: nat, range: nat, cand: nat, best: nat, bestDist: nat)
    requires c.seen && cand <= c.epoch + 1
    ensures var d := Distance(InEpoch(raw, range, cand), c.reference);
            Scan(c, raw, range, cand, best, bestDist) ==
            if d < bestDist then Scan(c, raw, range, cand + 1, cand, d) else Scan(c, raw, range, cand + 1, best, bestDist)
    ensures Scan(c, raw, range, c.epoch + 2, best, bestDist) == best
  {
  }

  lemma NoWrap(raw: nat, range: nat, epoch: nat)
    requires raw + Periods(epoch, range) < TWO64
    ensures InEpoch(raw, range, epoch) == raw + Periods(epoch, range)
  {
  }

  ghost predicate BeatsNeighbours(full: nat, c: ChannelClock, raw: nat, range: nat) {
    && Closest(full, raw + Periods(c.epoch, range), c.reference)
    && Closest(full, raw + Periods(c.epoch + 1, range), c.reference)
    && (c.epoch > 0 ==> Closest(full, raw + Periods(c.epoch - 1, range), c.reference))
  }

  /** The earliest of the times closest to `ref`, of two or three in order. */
  function Pick(f0: int, f1: nat, f2: nat, ref: nat, three: bool): int {
    var d0, d1, d2 := Distance(f0, ref), Distance(f1, ref), Distance(f2, ref);
    if !three || d1 < d0 then (if d2 < d1 then f2 else f1) else (if d2 < d0 then f2 else f0)
  }

  lemma PickIsClosest(f0: int, f1: nat, f2: nat, ref: nat, three: bool, f: nat)
    requires f0 < f1 < f2 && f == Pick(f0, f1, f2, ref, three) && (three ==> f0 >= 0)
    ensures Closest(f, f1, ref) && Closest(f, f2, ref) && (three ==> Closest(f, f0, ref))
  {
  }

  /** The search tries the previous epoch, the current one and the next. */
  lemma BestOfThree(c: ChannelClock, raw: nat, range: nat)
    requires raw < range && c.seen && ClockInv(c, range) && Room(c, range)
    ensures var e := c.epoch; var best := BestEpoch(c, raw, range); var f := raw + Periods(best, range);
            && (best == e || best == e + 1 || best + 1 == e)
            && InEpoch(raw, range, best) == f
            && BeatsNeighbours(f, c, raw, range)
  {
    hide BestEpoch, InEpoch, Closest, Distance;
    var e, ref := c.epoch, c.reference;
    var p := Periods(e, range);
    var best := BestEpoch(c, raw, range);
    assert Periods(e + 1, range) == p + range;
    NoWrap(raw, range, e);
    NoWrap(raw, range, e + 1);
    DistanceBound(raw + p, ref);
    var d1, d2 := Distance(raw + p, ref), Distance(raw + p + range, ref);
    if e > 0 {
      assert p == Periods(e - 1, range) + range;
      NoWrap(raw, range, e - 1);
      DistanceBound(raw + p - range, ref);
      SearchOrder(c, raw, range, Distance(raw + p - range, ref), d1, d2);
    } else {
      SearchOrder(c, raw, range, 0, d1, d2);
    }
    PickIsClosest(raw + p - range, raw + p, raw + p + range, ref, e > 0, raw + Periods(best, range));
  }

  lemma DistanceBound(a: nat, b: nat)
    ensures Distance(a, b) <= a || Distance(a, b) <= b
  {
  }

  /** Distance grows away from the reference, on either side. */
  lemma FartherOut(full: nat, near: nat, other: nat, ref: nat)
    requires Closest(full, near, ref)
    requires ref <= near <= other || (other < near <= ref)
    ensures Closest(full, other, ref)
  {
  }

  /** An epoch outside the three tried is no closer than the best of the three. */
  lemma OtherEpochsAreFarther(c: ChannelClock, raw: nat, range: nat, full: nat, k: nat)
    requires raw < range && c.seen && ClockInv(c, range)
    requires BeatsNeighbours(full, c, raw, range)
    ensures Closest(full, raw + Periods(k, range), c.reference)
  {
    hide Closest, Periods;
    var e := c.epoch;
    if k > e + 1 {
      PeriodsGrow(e + 1, k, range);
      FartherOut(full, raw + Periods(e + 1, range), raw + Periods(k, range), c.reference);
    } else if k == e + 1 {
    } else if k == e {
    } else if k == e - 1 {
    } else {
      PeriodsGrow(k, e - 1, range);
      PreviousEpochIsBehind(c, raw, range);
      FartherOut(full, raw + Periods(e - 1, range), raw + Periods(k, range), c.reference);
    }
  }

  lemma PreviousEpochIsBehind(c: ChannelClock, raw: nat, range: nat)
    requires raw < range && c.seen && c.epoch > 0 && ClockInv(c, range)
    ensures raw + Periods(c.epoch - 1, range) <= c.reference
  {
    assert Periods(c.epoch, range) == range + Periods(c.epoch - 1, range);
  }

  lemma NeighboursDecide(c: ChannelClock, raw: nat, range: nat, best: nat)
    requires raw < range && c.seen && ClockInv(c, range)
    requires BeatsNeighbours(raw + Periods(best, range), c, raw, range)
    ensures Nearest(raw + Periods(best, range), raw, range, c.reference)
  {
    hide Closest, Periods;
    var full := raw + Periods(best, range);
    forall k: nat
      ensures Closest(full, raw + Periods(k, range), c.reference)
    {
      OtherEpochsAreFarther(c, raw, range, full, k);
    }
  }

  /** The three candidate epochs suffice: the time returned is the nearest to the reference of ALL
      non-negative times the counter could mean. */
  lemma UnwrapIsNearest(c: ChannelClock, raw: nat, width: nat)
    requires width < 64 && raw < Pow2(width) && ClockInv(c, Pow2(width)) && Room(c, Pow2(width))
    ensures c.seen ==> Nearest(UnwrappedTime(c, raw, width), raw, Pow2(width), c.reference)
    ensures !c.seen ==> UnwrappedTime(c, raw, width) == raw
  {
    var range := Pow2(width);
    hide Pow2, Closest;
    if c.seen {
      BestOfThree(c, raw, range);
      var best := BestEpoch(c, raw, range);
      NeighboursDecide(c, raw, range, best);
    } else {
      assert BestEpoch(c, raw, range) == 0;
    }
  }

  /** Every placement keeps the clock invariant: the reference is the latest time returned, the epoch
      is the reference's own, and one placement moves less than two wraps ahead. */
  lemma TickKeepsInvariant(c: ChannelClock, raw: nat, width: nat)
    requires width < 64 && raw < Pow2(width) && ClockInv(c, Pow2(width)) && Room(c, Pow2(width))
    ensures var c' := Ticked(c, raw, width);
            && ClockInv(c', Pow2(width)) && c'.seen
            && c'.epoch == c'.reference / Pow2(width)
    ensures UnwrappedTime(c, raw, width) < c.reference + 2 * Pow2(width)
  {
    var range := Pow2(width);
    hide Pow2, Periods;
    var best := BestEpoch(c, raw, range);
    if c.seen {
      BestOfThree(c, raw, range);
    } else {
      assert best == 0;
    }
    EpochFollows(c, raw, range, best);
    EpochOfReference(Ticked(c, raw, width), range);
  }

  lemma EpochOfReference(c: ChannelClock, range: nat)
    requires range > 0 && ClockInv(c, range)
    ensures c.epoch == c.reference / range
  {
    DivisionUnique(c.reference, range, c.epoch, c.reference - Periods(c.epoch, range));
  }

  lemma EpochFollows(c: ChannelClock, raw: nat, range: nat, best: nat)
    requires raw < range && ClockInv(c, range)
    requires best == c.epoch || best == c.epoch + 1 || best + 1 == c.epoch
    requires !c.seen ==> best == 0
    ensures var full := raw + Periods(best, range);
            && full < c.reference + 2 * range
            && ClockInv(ChannelClock(if best > c.epoch then best else c.epoch,
                                     if full > c.reference then full else c.reference, true), range)
  {
    var e := c.epoch;
    assert Periods(e + 1, range) == Periods(e, range) + range;
    assert Periods(e + 2, range) == Periods(e + 1, range) + range;
    assert e > 0 ==> Periods(e, range) == Periods(e - 1, range) + range;
  }

  // ----- exactness -----

  /** The times that the search brings back from their counter value: no more than half a wrap before
      the reference, and less than half a wrap after it unless no earlier wrap exists. */
  predicate Recoverable(c: ChannelClock, t: nat, range: nat) {
    if c.seen then 2 * c.reference <= 2 * t + range && (2 * t < 2 * c.reference + range || t < range)
    else t < range
  }

  /** Exactly when a true time is recovered from its counter value. */
  lemma UnwrapExactIff(c: ChannelClock, t: nat, width: nat)
    requires width < 64 && ClockInv(c, Pow2(width)) && Room(c, Pow2(width))
    ensures UnwrappedTime(c, t % Pow2(width), width) == t <==> Recoverable(c, t, Pow2(width))
  {
    var range := Pow2(width);
    Division(t, range);
    ExactAt(c, t, t % range, t / range, width);
  }

  lemma ExactAt(c: ChannelClock, t: nat, raw: nat, q: nat, width: nat)
    requires width < 64 && raw < Pow2(width) && ClockInv(c, Pow2(width)) && Room(c, Pow2(width))
    requires t == raw + Periods(q, Pow2(width))
    ensures UnwrappedTime(c, raw, width) == t <==> Recoverable(c, t, Pow2(width))
  {
    var range := Pow2(width);
    UnwrapIsNearest(c, raw, width);
    if q > 0 {
      PeriodsGrow(0, q, range);
    }
    if c.seen {
      NearestExactIff(UnwrappedTime(c, raw, width), t, raw, q, range, c.reference);
    }
  }

  lemma NearestExactIff(full: nat, t: nat, raw: nat, q: nat, range: nat, ref: nat)
    requires raw < range && t == raw + Periods(q, range) && (t < range <==> q == 0)
    requires Nearest(full, raw, range, ref)
    ensures full == t <==> 2 * ref <= 2 * t + range && (2 * t < 2 * ref + range || t < range)
  {
    var k: nat :| full == raw + Periods(k, range);
    assert Closest(full, raw + Periods(q, range), ref);
    assert Closest(full, raw + Periods(q + 1, range), ref);
    if q > 0 {
      assert Closest(full, raw + Periods(q - 1, range), ref);
    }
    if k < q {
      PeriodsGrow(k, q, range);
    } else if q < k {
      PeriodsGrow(q, k, range);
    }
  }

  // ----- whole runs -----

  /** The clock after the counter values of a run of true times. */
  function ClockAfter(c: ChannelClock, ts: seq<nat>, width: nat): ChannelClock
    decreases |ts|
  {
    if ts == [] then c else ClockAfter(Ticked(c, ts[0] % Pow2(width), width), ts[1..], width)
  }

  /** What the board's clock answers to the counter values of a run of true times. */
  function Answers(c: ChannelClock, ts: seq<nat>, width: nat): seq<nat>
    decreases |ts|
  {
    if ts == [] then []
    else var raw := ts[0] % Pow2(width);
      [UnwrappedTime(c, raw, width)] + Answers(Ticked(c, raw, width), ts[1..], width)
  }

  /** Running maximum, from a known value. */
  function MaxOf(m: nat, ts: seq<nat>): nat
    decreases |ts|
  {
    if ts == [] then m else MaxOf(if ts[0] > m then ts[0] else m, ts[1..])
  }

  /** A run a clock in state `c` can follow: every time lies within half a wrap of the latest time so
      far, in any order. */
  predicate Trackable(c: ChannelClock, ts: seq<nat>, range: nat)
    decreases |ts|
  {
    ts == [] ||
    (&& Recoverable(c, ts[0], range)
     && Trackable(ChannelClock(c.epoch, if ts[0] > c.reference then ts[0] else c.reference, true), ts[1..], range))
  }

  /** Whole-run unwrapping, over any number of wraps and any order of arrival: every time of the run is
      returned from its counter value exactly when the run is trackable. */
  lemma {:induction false} RunUnwrapsExactlyIff(c: ChannelClock, ts: seq<nat>, width: nat)
    requires width < 64 && ClockInv(c, Pow2(width)) && Room(c, Pow2(width))
    requires forall i :: 0 <= i < |ts| ==> ts[i] + 2 * Pow2(width) < TWO64
    ensures Answers(c, ts, width) == ts <==> Trackable(c, ts, Pow2(width))
    decreases |ts|
  {
    if ts != [] {
      var range := Pow2(width);
      var raw := ts[0] % range;
      UnwrapExactIff(c, ts[0], width);
      TickKeepsInvariant(c, raw, width);
      assert Answers(c, ts, width)[0] == UnwrappedTime(c, raw, width);
      if UnwrappedTime(c, raw, width) == ts[0] {
        var c' := Ticked(c, raw, width);
        var e := ChannelClock(c.epoch, if ts[0] > c.reference then ts[0] else c.reference, true);
        TrackableIgnoresEpoch(c', e, ts[1..], range);
        RunUnwrapsExactlyIff(c', ts[1..], width);
        assert [ts[0]] + ts[1..] == ts;
        assert Answers(c, ts, width)[1..] == Answers(c', ts[1..], width);
      }
    }
  }

  /** After a trackable run the reference is the latest true time, and the epoch its wrap count. */
  lemma {:induction false} ClockAfterRun(c: ChannelClock, ts: seq<nat>, width: nat)
    requires width < 64 && ClockInv(c, Pow2(width)) && Room(c, Pow2(width))
    requires forall i :: 0 <= i < |ts| ==> ts[i] + 2 * Pow2(width) < TWO64
    requires Trackable(c, ts, Pow2(width))
    ensures var c' := ClockAfter(c, ts, width);
            c'.reference == MaxOf(c.reference, ts) && c'.epoch == c'.reference / Pow2(width)
    decreases |ts|
  {
    var range := Pow2(width);
    if ts == [] {
      EpochOfReference(c, range);
    } else {
      var raw := ts[0] % range;
      UnwrapExactIff(c, ts[0], width);
      TickKeepsInvariant(c, raw, width);
      var e := ChannelClock(c.epoch, if ts[0] > c.reference then ts[0] else c.reference, true);
      TrackableIgnoresEpoch(Ticked(c, raw, width), e, ts[1..], range);
      ClockAfterRun(Ticked(c, raw, width), ts[1..], width);
    }
  }

  /** Room for one more wrap at every step of a run. */
  ghost predicate RoomThroughout(c: ChannelClock, ts: seq<nat>, width: nat)
    decreases |ts|
  {
    Room(c, Pow2(width)) && (ts == [] || RoomThroughout(Ticked(c, ts[0] % Pow2(width), width), ts[1..], width))
  }

  /** In every reachable state, whatever counter values arrive: the reference is the maximum of all times
      returned so far and the epoch is the reference's own. */
  lemma {:induction false} ReferenceIsMaximum(c: ChannelClock, ts: seq<nat>, width: nat)
    requires width < 64 && ClockInv(c, Pow2(width)) && RoomThroughout(c, ts, width)
    ensures var c' := ClockAfter(c, ts, width);
            && c'.reference == MaxOf(c.reference, Answers(c, ts, width))
            && c'.epoch == c'.reference / Pow2(width)
            && ClockInv(c', Pow2(width))
    decreases |ts|
  {
    hide BestEpoch, InEpoch, Pow2, ClockInv, UnwrappedTime;
    if ts == [] {
      EpochOfReference(c, Pow2(width));
    } else {
      var raw := ts[0] % Pow2(width);
      TickKeepsInvariant(c, raw, width);
      ReferenceIsMaximum(Ticked(c, raw, width), ts[1..], width);
      assert Answers(c, ts, width)[0] == UnwrappedTime(c, raw, width);
      assert Answers(c, ts, width)[1..] == Answers(Ticked(c, raw, width), ts[1..], width);
    }
  }

  lemma {:induction false} TrackableIgnoresEpoch(a: ChannelClock, b: ChannelClock, ts: seq<nat>, range: nat)
    requires a.reference == b.reference && a.seen && b.seen
    ensures Trackable(a, ts, range) == Trackable(b, ts, range)
    decreases |ts|
  {
    if ts != [] {
      var m := if ts[0] > a.reference then ts[0] else a.reference;
      TrackableIgnoresEpoch(ChannelClock(a.epoch, m, true), ChannelClock(b.epoch, m, true), ts[1..], range);
    }
  }

  // ----- picoseconds -----

  /** The time in ps: an unsigned 64-bit product read as signed, then the fine part of one tick added in
      signed 64 bits. */
  function TimePs(ticks: nat, psPerTick: nat, fineTS: nat, fineBits: nat): (ps: int)
    ensures -TWO63 <= ps < TWO63
  {
    I64(U64(U64(ticks * psPerTick) + FineAdded(psPerTick, fineTS, fineBits)))
  }

  function FineAdded(psPerTick: nat, fineTS: nat, fineBits: nat): nat {
    if fineBits > 0 then FinePs(psPerTick, fineTS, fineBits) else 0
  }

  /** Adding in signed or in unsigned 64 bits makes no difference. */
  lemma SignedSum(x: nat, y: nat)
    requires x < TWO64
    ensures I64(U64(I64(x) + y)) == I64(U64(x + y))
  {
  }

  lemma UnsignedSum(x: nat, y: nat)
    ensures U64(U64(x) + y) == U64(x + y)
  {
  }

  /** A 64-bit pattern read as signed is the number itself, or at least 2^64 less. */
  lemma SignedOf(x: nat)
    ensures x < TWO63 ==> I64(U64(x)) == x
    ensures x >= TWO63 ==> I64(U64(x)) <= x - TWO64
  {
  }

  function FinePs(psPerTick: nat, fineTS: nat, fineBits: nat): nat {
    Shr(fineTS * psPerTick, fineBits)
  }

  /** C++ integer division. */
  function TruncDiv(a: int, b: nat): int
    requires b > 0
  {
    if a >= 0 then a / b else -((-a) / b)
  }

  lemma {:induction false} ShrBelow(x: nat, bound: nat, n: nat)
    requires x < bound * Pow2(n)
    ensures Shr(x, n) < bound
  {
    if n > 0 {
      assert bound * Pow2(n) == 2 * (bound * Pow2(n - 1)) by {
        assert Pow2(n) == 2 * Pow2(n - 1);
      }
      ShrBelow(x / 2, bound, n - 1);
    }
  }

  /** The fine part never reaches one tick. */
  lemma FineBelowTick(psPerTick: nat, fineTS: nat, fineBits: nat)
    requires fineTS < Pow2(fineBits) && psPerTick > 0
    ensures FinePs(psPerTick, fineTS, fineBits) < psPerTick
  {
    ProductMonotone(fineTS + 1, Pow2(fineBits), psPerTick);
    assert (fineTS + 1) * psPerTick == fineTS * psPerTick + psPerTick;
    ShrBelow(fineTS * psPerTick, psPerTick, fineBits);
  }

  /** The fine part is the fine time's share of one tick, rounded down; without fine bits there is none. */
  lemma FinePartIsFloor(psPerTick: nat, fineTS: nat, fineBits: nat)
    ensures var f := FineAdded(psPerTick, fineTS, fineBits);
            if fineBits == 0 then f == 0
            else f * Pow2(fineBits) <= fineTS * psPerTick && fineTS * psPerTick < (f + 1) * Pow2(fineBits)
  {
    hide Pow2, Shr;
    var x, p := fineTS * psPerTick, Pow2(fineBits);
    ShiftsAreProducts(x, fineBits);
    Division(x, p);
    PeriodsIsProduct(x / p, p);
    PeriodsIsProduct(x / p + 1, p);
  }

  /** C++ division rounds towards zero. */
  lemma TruncDivTruncates(a: int, b: nat)
    requires b > 0
    ensures var q := TruncDiv(a, b);
            if a >= 0 then q >= 0 && q * b <= a < q * b + b else q <= 0 && q * b - b < a <= q * b
  {
    if a >= 0 {
      Division(a, b);
      PeriodsIsProduct(a / b, b);
    } else {
      Division(-a, b);
      PeriodsIsProduct((-a) / b, b);
    }
  }

  /** The time in ps is what it should be if and only if it fits a signed 64-bit integer. */
  lemma TimePsExactIff(ticks: nat, psPerTick: nat, fineTS: nat, fineBits: nat)
    ensures var due := ticks * psPerTick + FineAdded(psPerTick, fineTS, fineBits);
            && (TimePs(ticks, psPerTick, fineTS, fineBits) == due <==> due < TWO63)
            && (due >= TWO63 ==> TimePs(ticks, psPerTick, fineTS, fineBits) <= due - TWO64)
  {
    hide FineAdded, U64, I64;
    var fine := FineAdded(psPerTick, fineTS, fineBits);
    UnsignedSum(ticks * psPerTick, fine);
    SignedOf(ticks * psPerTick + fine);
  }

  /** A time in ps names its tick if and only if product and fine part together fit a signed 64-bit
      integer. The period is a 32-bit number. */
  lemma TimePsNamesTick(ticks: nat, psPerTick: nat, fineTS: nat, fineBits: nat)
    requires 0 < psPerTick < TWO32 && fineTS < Pow2(fineBits)
    ensures TruncDiv(TimePs(ticks, psPerTick, fineTS, fineBits), psPerTick) == ticks <==>
            ticks * psPerTick + FineAdded(psPerTick, fineTS, fineBits) < TWO63
  {
    hide FinePs, TimePs;
    var product, fine := ticks * psPerTick, FineAdded(psPerTick, fineTS, fineBits);
    var ps := TimePs(ticks, psPerTick, fineTS, fineBits);
    TimePsExactIff(ticks, psPerTick, fineTS, fineBits);
    PeriodsIsProduct(ticks, psPerTick);
    FineBelowTick(psPerTick, fineTS, fineBits);
    if product + fine < TWO63 {
      DivisionUnique(ps, psPerTick, ticks, fine);
    } else {
      OverflowLosesTick(ticks, psPerTick, ps);
    }
  }

  /** The product alone may fit: with 2 ns ticks and a full fine time stamp, the tick is lost at 107 days
      although its product is below 2^63. */
  lemma FineTimeOverflows()
    ensures 4611686018427387 * 2000 < TWO63
    ensures TruncDiv(TimePs(4611686018427387, 2000, 1023, 10), 2000) != 4611686018427387
  {
    hide TimePs;
    assert Pow2(10) == 0x400 by {
      PowerTable();
    }
    FullFine();
    TimePsNamesTick(4611686018427387, 2000, 1023, 10);
  }

  lemma FullFine()
    ensures FineAdded(2000, 1023, 10) == 1998
  {
    PowerTable();
    ShiftsAreProducts(1023 * 2000, 10);
  }

  lemma OverflowLosesTick(ticks: nat, psPerTick: nat, ps: int)
    requires psPerTick > 0 && ps < Periods(ticks, psPerTick) && ticks > 0
    ensures TruncDiv(ps, psPerTick) != ticks
  {
    if ps >= 0 {
      Division(ps, psPerTick);
    } else {
      Division(-ps, psPerTick);
    }
  }
}
