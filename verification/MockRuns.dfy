/** Mock digitizer and decoder composed over whole runs. */
module MockRuns {
  import opened Words
  import opened Arithmetic
  import opened Clocks
  import opened DataFrames
  import opened Parsing
  import opened Stamping
  import opened Decoder
  import opened DecodingLaws
  import opened Encoding
  import opened RoundTrip
  import opened Mock

  // ----- times, for any board -----

  /** Events of one board, stamped with the counter values of the true times `ts`, with or without fine time. */
  predicate StampedWith(evs: seq<RawEvent>, board: nat, width: nat, ts: seq<nat>) {
    |evs| == |ts| &&
    forall i :: 0 <= i < |evs| ==>
      evs[i].board == board && evs[i].timed && evs[i].width == width &&
      evs[i].timestamp == ts[i] % Pow2(width)
  }

  /** The part of the time below one tick. */
  function FinePart(e: RawEvent, psPerTick: nat): nat {
    FineAdded(psPerTick, e.fineTS, e.fineBits)
  }

  function AtTimes(evs: seq<RawEvent>, ts: seq<nat>, psPerTick: nat): seq<DecodedEvent>
    requires |evs| == |ts|
  {
    seq(|evs|, i requires 0 <= i < |evs| => AtTime(evs[i], ts[i] * psPerTick + FinePart(evs[i], psPerTick)))
  }

  lemma TimeInPs(t: nat, psPerTick: nat, e: RawEvent)
    requires t * psPerTick + FinePart(e, psPerTick) < TWO63
    ensures TimePs(t, psPerTick, e.fineTS, e.fineBits) == t * psPerTick + FinePart(e, psPerTick)
  {
    hide FineAdded, TimePs;
    TimePsExactIff(t, psPerTick, e.fineTS, e.fineBits);
  }

  /** One event on time: delivered at its true time, its clock ready for the next. */
  lemma OneTimeRecovered(boards: map<nat, BoardCfg>, s: DecState, e: RawEvent, t: nat, rest: seq<nat>, board: nat, width: nat)
    requires e.board == board && e.timed && e.width == width && e.timestamp == t % Pow2(width) && width < 64
    requires board in boards && boards[board].psPerTick > 0
    requires var c := ClockOf(s.clocks, board); ClockInv(c, Pow2(width)) && Room(c, Pow2(width)) && Trackable(c, [t] + rest, Pow2(width))
    requires t + 2 * Pow2(width) < TWO64 && t * boards[board].psPerTick + FinePart(e, boards[board].psPerTick) < TWO63
    ensures var c' := Ticked(ClockOf(s.clocks, board), e.timestamp, width);
            && EventTimePs(boards, s.clocks, e) == t * boards[board].psPerTick + FinePart(e, boards[board].psPerTick)
            && ClockInv(c', Pow2(width)) && Room(c', Pow2(width)) && Trackable(c', rest, Pow2(width))
  {
    hide Ticked, UnwrappedTime, ClockInv, Pow2, TimePs, FinePart, ClockOf;
    var c := ClockOf(s.clocks, board);
    TimeInPs(t, boards[board].psPerTick, e);
    assert ([t] + rest)[1..] == rest;
    UnwrapExactIff(c, t, width);
    TickKeepsInvariant(c, e.timestamp, width);
    var c' := ChannelClock(c.epoch, if t > c.reference then t else c.reference, true);
    TickedFields(c, e.timestamp, width);
    TrackableIgnoresEpoch(Ticked(c, e.timestamp, width), c', rest, Pow2(width));
  }

  /** The decoder delivers every event of a trackable run at its true time, its fine time added. */
  lemma {:induction false} TimesRecovered(boards: map<nat, BoardCfg>, s: DecState, evs: seq<RawEvent>, ts: seq<nat>,
                                          board: nat, width: nat)
    requires StampedWith(evs, board, width, ts) && width < 64
    requires board in boards && boards[board].psPerTick > 0
    requires var c := ClockOf(s.clocks, board); ClockInv(c, Pow2(width)) && Room(c, Pow2(width)) && Trackable(c, ts, Pow2(width))
    requires forall i :: 0 <= i < |ts| ==> ts[i] + 2 * Pow2(width) < TWO64
    requires forall i :: 0 <= i < |ts| ==> ts[i] * boards[board].psPerTick + FinePart(evs[i], boards[board].psPerTick) < TWO63
    ensures var s' := DeliverAll(boards, s, evs);
            && s'.events == s.events + AtTimes(evs, ts, boards[board].psPerTick)
            && ClockOf(s'.clocks, board) == ClockAfter(ClockOf(s.clocks, board), ts, width)
            && s' == s.(events := s'.events, clocks := s'.clocks)
    decreases |evs|
  {
    hide Ticked, UnwrappedTime, ClockInv, Room, Pow2, FinePart, Trackable, EventTimePs;
    if evs != [] {
      var e, t, ps := evs[0], ts[0], boards[board].psPerTick;
      var s1 := Deliver(boards, s, e);
      assert ts == [t] + ts[1..];
      OneTimeRecovered(boards, s, e, t, ts[1..], board, width);
      TimesRecovered(boards, s1, evs[1..], ts[1..], board, width);
      assert AtTimes(evs, ts, ps) == [AtTime(e, t * ps + FinePart(e, ps))] + AtTimes(evs[1..], ts[1..], ps);
    } else {
      assert s.events + [] == s.events;
    }
  }

  /** The exact condition: every event comes out at its true time if and only if the run is trackable, times
      and reference staying below a bound from which two wraps more still fit the ps time. */
  lemma {:induction false} TimesRecoveredIff(boards: map<nat, BoardCfg>, s: DecState, evs: seq<RawEvent>, ts: seq<nat>,
                                             board: nat, width: nat, bound: nat)
    requires StampedWith(evs, board, width, ts) && width < 64
    requires board in boards && boards[board].psPerTick > 0
    requires var c := ClockOf(s.clocks, board); ClockInv(c, Pow2(width)) && c.reference <= bound
    requires forall i :: 0 <= i < |ts| ==> ts[i] <= bound
    requires bound + 2 * Pow2(width) < TWO64
    requires forall i :: 0 <= i < |evs| ==>
               (bound + 2 * Pow2(width)) * boards[board].psPerTick + FinePart(evs[i], boards[board].psPerTick) < TWO63
    ensures DeliverAll(boards, s, evs).events == s.events + AtTimes(evs, ts, boards[board].psPerTick) <==>
            Trackable(ClockOf(s.clocks, board), ts, Pow2(width))
    decreases |evs|
  {
    hide Ticked, UnwrappedTime, ClockInv, Pow2, FinePart, EventTimePs, Recoverable, ClockOf;
    if evs != [] {
      var e, t, ps, range := evs[0], ts[0], boards[board].psPerTick, Pow2(width);
      var c := ClockOf(s.clocks, board);
      var s1 := Deliver(boards, s, e);
      OneEventTime(boards, s, e, t, board, width, bound);
      var rest, due := AtTimes(evs[1..], ts[1..], ps), AtTime(e, t * ps + FinePart(e, ps));
      assert AtTimes(evs, ts, ps) == [due] + rest;
      FirstDelivered(boards, s, evs);
      if Recoverable(c, t, range) {
        var m := if t > c.reference then t else c.reference;
        TickedFields(c, e.timestamp, width);
        DeliveredClock(boards, s, e);
        TrackableIgnoresEpoch(Ticked(c, e.timestamp, width), ChannelClock(c.epoch, m, true), ts[1..], range);
        TimesRecoveredIff(boards, s1, evs[1..], ts[1..], board, width, bound);
        assert (s.events + [due]) + rest == s.events + ([due] + rest);
      } else {
        assert (s.events + ([due] + rest))[|s.events|] == due;
      }
    }
  }

  lemma DeliveredClock(boards: map<nat, BoardCfg>, s: DecState, e: RawEvent)
    requires e.timed
    ensures ClockOf(Deliver(boards, s, e).clocks, e.board) == Ticked(ClockOf(s.clocks, e.board), e.timestamp, e.width)
  {
    hide Ticked;
  }

  lemma FirstDelivered(boards: map<nat, BoardCfg>, s: DecState, evs: seq<RawEvent>)
    requires evs != []
    ensures var out := DeliverAll(boards, s, evs).events;
            |s.events| < |out| && out[|s.events|] == AtTime(evs[0], EventTimePs(boards, s.clocks, evs[0]))
  {
    hide EventTimePs, TickClocks;
    var s1 := Deliver(boards, s, evs[0]);
    DeliveredEvents(boards, s1, evs[1..]);
    var out := DeliverAll(boards, s, evs).events;
    assert out[|s.events|] == out[..|s1.events|][|s.events|];
  }

  /** The time of one event is the true one if and only if the clock can recover it. */
  lemma OneEventTime(boards: map<nat, BoardCfg>, s: DecState, e: RawEvent, t: nat, board: nat, width: nat, bound: nat)
    requires e.board == board && e.timed && e.width == width && e.timestamp == t % Pow2(width) && width < 64
    requires board in boards && boards[board].psPerTick > 0
    requires var c := ClockOf(s.clocks, board); ClockInv(c, Pow2(width)) && c.reference <= bound
    requires t <= bound && bound + 2 * Pow2(width) < TWO64
    requires (bound + 2 * Pow2(width)) * boards[board].psPerTick + FinePart(e, boards[board].psPerTick) < TWO63
    ensures var c, ps := ClockOf(s.clocks, board), boards[board].psPerTick;
            && (EventTimePs(boards, s.clocks, e) == t * ps + FinePart(e, ps) <==> Recoverable(c, t, Pow2(width)))
            && (UnwrappedTime(c, e.timestamp, width) == t <==> Recoverable(c, t, Pow2(width)))
            && ClockInv(Ticked(c, e.timestamp, width), Pow2(width))
  {
    hide Ticked, UnwrappedTime, ClockInv, Pow2, TimePs, FinePart, ClockOf, Recoverable;
    var c, ps := ClockOf(s.clocks, board), boards[board].psPerTick;
    var u := UnwrappedTime(c, e.timestamp, width);
    UnwrapExactIff(c, t, width);
    TickKeepsInvariant(c, e.timestamp, width);
    ProductMonotone(u, bound + 2 * Pow2(width), ps);
    TimeInPs(u, ps, e);
    SameProduct(u, t, ps);
  }

  lemma SameProduct(a: nat, b: nat, c: nat)
    requires c > 0
    ensures a * c == b * c <==> a == b
  {
    if a < b {
      assert (b - a) * c > 0;
    } else if b < a {
      assert (a - b) * c > 0;
    }
  }

  lemma TickedFields(c: ChannelClock, raw: nat, width: nat)
    ensures var full := UnwrappedTime(c, raw, width);
            var c' := Ticked(c, raw, width);
            c'.seen && c'.reference == if full > c.reference then full else c.reference
  {
    hide UnwrappedTime, BestEpoch;
  }

  /** Times that all lie in one window of less than half a wrap can be tracked in any order. */
  lemma {:induction false} WindowIsTrackable(c: ChannelClock, ts: seq<nat>, range: nat, lo: nat, hi: nat)
    requires lo <= hi && 2 * (hi - lo) < range
    requires if c.seen then lo <= c.reference <= hi else hi < range && c.reference == 0
    requires forall i :: 0 <= i < |ts| ==> lo <= ts[i] <= hi
    ensures Trackable(c, ts, range)
    decreases |ts|
  {
    if ts != [] {
      var m := if ts[0] > c.reference then ts[0] else c.reference;
      WindowIsTrackable(ChannelClock(c.epoch, m, true), ts[1..], range, lo, hi);
    }
  }

  lemma {:induction false} MaxInWindow(m: nat, ts: seq<nat>, hi: nat)
    requires m <= hi && forall i :: 0 <= i < |ts| ==> ts[i] <= hi
    ensures m <= MaxOf(m, ts) <= hi && (ts != [] ==> ts[0] <= MaxOf(m, ts))
    decreases |ts|
  {
    if ts != [] {
      MaxInWindow(if ts[0] > m then ts[0] else m, ts[1..], hi);
    }
  }

  // ----- the generator's ticks -----

  function Span(opt: Options): nat { Period(opt) / TICK_NS }

  lemma PeriodBounds(opt: Options)
    ensures Period(opt) <= NS_PER_SECOND
  {
  }

  /** Consecutive emissions cover consecutive periods. */
  lemma BasesAdvance(opt: Options, n: nat)
    ensures BaseTick(opt, 0) == 0
    ensures BaseTick(opt, n) <= BaseTick(opt, n + 1) <= BaseTick(opt, n) + Span(opt) + 1
    ensures 2 * BaseTick(opt, n) <= n * Period(opt) + 1
  {
    var p := Period(opt);
    assert (n + 1) * p == n * p + p && (n + 1 + 1) * p == n * p + 2 * p && (0 + 1) * p == p;
    assert n * p >= 0;
  }

  /** No event of an emission lies more than a period and 25 ticks after its base. */
  lemma TicksNearBase(opt: Options, n: nat, nEvents: nat, e: nat, t: nat)
    requires 8 <= nEvents <= 31 && e < nEvents && TickOf(opt, n, nEvents, e, t)
    ensures BaseTick(opt, n) <= t <= BaseTick(opt, n) + Span(opt) + 25
    ensures e == 0 ==> t == BaseTick(opt, n)
  {
    hide BaseTick;
    var pairs, step := (nEvents + 1) / 2, PairStep(opt, nEvents);
    var q := e / 2;
    assert q <= pairs - 1;
    ProductMonotone(q, pairs - 1, step);
    assert (pairs - 1) * step == pairs * step - step;
    StepsFitSpan(opt, nEvents);
    assert q * step >= 0;
  }

  lemma StepsFitSpan(opt: Options, nEvents: nat)
    requires 8 <= nEvents <= 31
    ensures var pairs := (nEvents + 1) / 2; var step := PairStep(opt, nEvents);
            pairs * step <= Span(opt) || (step == 1 && pairs * step <= 16)
  {
    var pairs, span := (nEvents + 1) / 2, Span(opt);
    if span / pairs > 0 {
      Division(span, pairs);
      PeriodsIsProduct(span / pairs, pairs);
      assert PairStep(opt, nEvents) == span / pairs;
      assert pairs * (span / pairs) == (span / pairs) * pairs;
    } else {
      assert PairStep(opt, nEvents) == 1;
    }
  }

  /** Every event lies in the period that its emission covers, give or take 52 ns. */
  lemma EventsInTheirPeriod(opt: Options, n: nat, em: Emission, i: nat)
    requires EmissionOk(opt, n, em) && i < |em.ticks|
    ensures n * Period(opt) - 1 <= 2 * em.ticks[i] <= (n + 1) * Period(opt) + 52
  {
    hide BaseTick, TickOf, Period, Generated;
    BaseFollowsClock(opt, n);
    TicksNearBase(opt, n, |em.fields|, i, em.ticks[i]);
    assert (n + 1) * Period(opt) == n * Period(opt) + Period(opt);
  }

  /** The clock of the mock's board behind emission number `prev` (-1 for none): within one period of its
      base. */
  ghost predicate Behind(opt: Options, prev: int, c: ChannelClock) {
    if prev < 0 then c == FRESH
    else c.seen && ClockInv(c, COUNTER_RANGE) && BaseTick(opt, prev) <= c.reference <= BaseTick(opt, prev) + Span(opt) + 25
  }

  /** Emission `n` ends less than half a wrap after emission `prev` began, or before the first wrap if it is
      the first. The emissions between them may have been lost. */
  predicate ShortGap(opt: Options, prev: int, n: nat) {
    && prev < n
    && (if prev < 0 then BaseTick(opt, n) + Span(opt) + 25 < COUNTER_RANGE
        else 2 * (BaseTick(opt, n) + Span(opt) + 25 - BaseTick(opt, prev)) < COUNTER_RANGE)
  }

  /** Even at one buffer per second, consecutive emissions are close enough: two periods and 26 ticks are
      fewer than 2^30. */
  lemma ConsecutiveIsShort(opt: Options, n: nat)
    ensures ShortGap(opt, n as int - 1, n)
  {
    hide BaseTick, Period;
    PeriodBounds(opt);
    BasesAdvance(opt, n);
    if n > 0 {
      BasesAdvance(opt, n - 1);
    }
  }

  lemma {:induction false} BasesGrow(opt: Options, m: nat, n: nat)
    requires m <= n
    ensures BaseTick(opt, m) <= BaseTick(opt, n)
    decreases n
  {
    hide BaseTick;
    if m < n {
      BasesAdvance(opt, n - 1);
      BasesGrow(opt, m, n - 1);
    }
  }

  /** The events of an emission stay within half a wrap of the clock. */
  lemma EmissionIsTrackable(opt: Options, prev: int, n: nat, em: Emission, c: ChannelClock)
    requires EmissionOk(opt, n, em) && Behind(opt, prev, c) && ShortGap(opt, prev, n)
    requires BaseTick(opt, n) <= 0x10_0000_0000_0000
    ensures ClockInv(c, Pow2(31)) && Room(c, Pow2(31)) && Trackable(c, em.ticks, Pow2(31))
    ensures forall i :: 0 <= i < |em.ticks| ==> em.ticks[i] <= BaseTick(opt, n) + Span(opt) + 25
    ensures Behind(opt, n, ClockAfter(c, em.ticks, 31))
  {
    hide BaseTick, TickOf, Generated, Trackable, ClockAfter, Pow2, Period;
    PowerTable();
    PeriodBounds(opt);
    var lo := if prev < 0 then BaseTick(opt, n) else BaseTick(opt, prev);
    var hi := BaseTick(opt, n) + Span(opt) + 25;
    if prev >= 0 {
      BasesGrow(opt, prev, n);
    }
    forall i | 0 <= i < |em.ticks|
      ensures BaseTick(opt, n) <= em.ticks[i] <= hi && (i == 0 ==> em.ticks[i] == BaseTick(opt, n))
    {
      TicksNearBase(opt, n, |em.fields|, i, em.ticks[i]);
    }
    WindowIsTrackable(c, em.ticks, COUNTER_RANGE, lo, hi);
    ClockAfterRun(c, em.ticks, 31);
    RunKeepsInvariant(c, em.ticks, 31);
    MaxInWindow(c.reference, em.ticks, hi);
  }

  lemma {:induction false} RunKeepsInvariant(c: ChannelClock, ts: seq<nat>, width: nat)
    requires width < 64 && ClockInv(c, Pow2(width)) && Room(c, Pow2(width))
    requires forall i :: 0 <= i < |ts| ==> ts[i] + 2 * Pow2(width) < TWO64
    requires Trackable(c, ts, Pow2(width))
    ensures ClockInv(ClockAfter(c, ts, width), Pow2(width)) && (ts != [] || c.seen ==> ClockAfter(c, ts, width).seen)
    decreases |ts|
  {
    hide ClockInv, Pow2, Ticked, UnwrappedTime;
    if ts != [] {
      var raw := ts[0] % Pow2(width);
      UnwrapExactIff(c, ts[0], width);
      TickKeepsInvariant(c, raw, width);
      TickedFields(c, raw, width);
      var c' := ChannelClock(c.epoch, if ts[0] > c.reference then ts[0] else c.reference, true);
      TrackableIgnoresEpoch(Ticked(c, raw, width), c', ts[1..], Pow2(width));
      RunKeepsInvariant(Ticked(c, raw, width), ts[1..], width);
    }
  }
}
