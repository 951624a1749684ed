/** Turning parsed events into decoded ones: the only state is one clock per board and the counters. */
module Stamping {
  import opened Words
  import opened Clocks
  import opened DataFrames
  import opened Parsing

  /** An event as the callback receives it. */
  datatype DecodedEvent = DecodedEvent(
    board: nat, channel: nat, timestamp: nat, timePs: int,
    energy: nat, qshort: nat, qlong: nat,
    pileup: bool, lost: bool, satu: bool,
    wave: seq<nat>)

  /** Everything a decoder accumulates over a run; `events` are the callback's calls, in order. */
  datatype DecState = DecState(
    clocks: map<nat, ChannelClock>,
    events: seq<DecodedEvent>,
    corrupt: nat, boardFail: nat, uninitialised: nat, uninitialisedEvents: nat, incomplete: nat)

  const INITIAL := DecState(map[], [], 0, 0, 0, 0, 0)

  function ClockOf(clocks: map<nat, ChannelClock>, board: nat): ChannelClock {
    if board in clocks then clocks[board] else FRESH
  }

  function PsPerTick(boards: map<nat, BoardCfg>, board: nat): nat {
    if board in boards then boards[board].psPerTick else 0
  }

  /** The event's time in ps: 0 without a time stamp or when the board's clock period is unknown. */
  function EventTimePs(boards: map<nat, BoardCfg>, clocks: map<nat, ChannelClock>, e: RawEvent): int {
    var psPerTick := PsPerTick(boards, e.board);
    if !e.timed || psPerTick == 0 then 0
    else TimePs(UnwrappedTime(ClockOf(clocks, e.board), e.timestamp, e.width), psPerTick, e.fineTS, e.fineBits)
  }

  function AtTime(e: RawEvent, timePs: int): DecodedEvent {
    DecodedEvent(e.board, e.channel, e.timestamp, timePs, e.energy, e.qshort, e.qlong, e.pileup, e.lost, e.satu, e.wave)
  }

  function TickClocks(clocks: map<nat, ChannelClock>, e: RawEvent): map<nat, ChannelClock> {
    if e.timed then clocks[e.board := Ticked(ClockOf(clocks, e.board), e.timestamp, e.width)] else clocks
  }

  /** One event delivered. */
  function Deliver(boards: map<nat, BoardCfg>, s: DecState, e: RawEvent): DecState {
    s.(clocks := TickClocks(s.clocks, e),
       events := s.events + [AtTime(e, EventTimePs(boards, s.clocks, e))])
  }

  function DeliverAll(boards: map<nat, BoardCfg>, s: DecState, evs: seq<RawEvent>): DecState
    decreases |evs|
  {
    if evs == [] then s else DeliverAll(boards, Deliver(boards, s, evs[0]), evs[1..])
  }

  function Count(s: DecState, p: Parsed): DecState {
    s.(corrupt := s.corrupt + p.corrupt, boardFail := s.boardFail + p.boardFail,
       uninitialised := s.uninitialised + p.uninitialised,
       uninitialisedEvents := s.uninitialisedEvents + p.uninitialisedEvents,
       incomplete := s.incomplete + p.incomplete)
  }

  /** The decoder after a parsed stretch of buffer. */
  function Advance(boards: map<nat, BoardCfg>, s: DecState, p: Parsed): DecState {
    DeliverAll(boards, Count(s, p), p.events)
  }

  /** An event without a time stamp gets no time and moves no clock; one of a board whose period is unknown
      gets no time, but its board's clock goes on; and no event moves the clock of another board. */
  lemma TimesAndClocks(boards: map<nat, BoardCfg>, s: DecState, e: RawEvent, other: nat)
    ensures var s' := Deliver(boards, s, e);
            && |s'.events| == |s.events| + 1
            && (!e.timed ==> s'.clocks == s.clocks && s'.events[|s.events|].timePs == 0)
            && ((e.board !in boards || boards[e.board].psPerTick == 0) ==> s'.events[|s.events|].timePs == 0)
            && (other != e.board ==> ClockOf(s'.clocks, other) == ClockOf(s.clocks, other))
            && (e.timed && e.board in boards && boards[e.board].psPerTick > 0 ==>
                  var c := ClockOf(s.clocks, e.board);
                  s'.events[|s.events|].timePs ==
                  TimePs(UnwrappedTime(c, e.timestamp, e.width), boards[e.board].psPerTick, e.fineTS, e.fineBits))
            && (e.timed ==> ClockOf(s'.clocks, e.board).seen)
  {
    hide UnwrappedTime, BestEpoch, TimePs;
  }

  lemma {:induction false} DeliverAllAppends(boards: map<nat, BoardCfg>, s: DecState, a: seq<RawEvent>, b: seq<RawEvent>)
    ensures DeliverAll(boards, s, a + b) == DeliverAll(boards, DeliverAll(boards, s, a), b)
    decreases |a|
  {
    if a == [] {
      assert a + b == b;
    } else {
      assert (a + b)[1..] == a[1..] + b;
      DeliverAllAppends(boards, Deliver(boards, s, a[0]), a[1..], b);
    }
  }

  /** Counting and delivering do not see each other. */
  lemma {:induction false} CountCommutes(boards: map<nat, BoardCfg>, s: DecState, evs: seq<RawEvent>, p: Parsed)
    ensures Count(DeliverAll(boards, s, evs), p) == DeliverAll(boards, Count(s, p), evs)
    decreases |evs|
  {
    if evs != [] {
      CountCommutes(boards, Deliver(boards, s, evs[0]), evs[1..], p);
      assert Count(Deliver(boards, s, evs[0]), p) == Deliver(boards, Count(s, p), evs[0]);
    }
  }

  /** Work can be done in stretches. */
  lemma AdvanceJoin(boards: map<nat, BoardCfg>, s: DecState, a: Parsed, b: Parsed)
    ensures Advance(boards, s, Join(a, b)) == Advance(boards, Advance(boards, s, a), b)
  {
    var j := Join(a, b);
    DeliverAllAppends(boards, Count(s, j), a.events, b.events);
    CountCommutes(boards, Count(s, a), a.events, b);
    assert Count(Count(s, a), b) == Count(s, j);
  }

  /** Every field of the one is that field of the other; the time aside. */
  predicate SameFields(d: DecodedEvent, e: RawEvent) {
    && d.board == e.board && d.channel == e.channel && d.timestamp == e.timestamp
    && d.energy == e.energy && d.qshort == e.qshort && d.qlong == e.qlong
    && d.pileup == e.pileup && d.lost == e.lost && d.satu == e.satu && d.wave == e.wave
  }

  /** The events delivered are the parsed ones in order, changed in nothing but their time. */
  lemma {:induction false} DeliveredEvents(boards: map<nat, BoardCfg>, s: DecState, evs: seq<RawEvent>)
    ensures var out := DeliverAll(boards, s, evs).events;
            && |out| == |s.events| + |evs|
            && out[..|s.events|] == s.events
            && (forall i :: 0 <= i < |evs| ==> out[|s.events| + i] == AtTime(evs[i], out[|s.events| + i].timePs))
            && (forall i :: 0 <= i < |evs| ==> SameFields(out[|s.events| + i], evs[i]))
    ensures Count(s, NOTHING) == s
    decreases |evs|
  {
    if evs != [] {
      var s' := Deliver(boards, s, evs[0]);
      DeliveredEvents(boards, s', evs[1..]);
      var out := DeliverAll(boards, s, evs).events;
      var n := |s.events|;
      assert out[..n + 1] == s.events + [s'.events[n]];
      assert out[..n] == out[..n + 1][..n];
      assert out[n] == out[..n + 1][n];
      forall i | 0 <= i < |evs|
        ensures out[n + i] == AtTime(evs[i], out[n + i].timePs) && SameFields(out[n + i], evs[i])
      {
        if i > 0 {
          assert evs[i] == evs[1..][i - 1];
          assert out[n + i] == out[|s'.events| + (i - 1)];
        }
      }
    }
  }

  lemma {:induction false} DeliveryCountsNothing(boards: map<nat, BoardCfg>, s: DecState, evs: seq<RawEvent>)
    ensures var s' := DeliverAll(boards, s, evs);
            && s'.corrupt == s.corrupt && s'.boardFail == s.boardFail && s'.uninitialised == s.uninitialised
            && s'.uninitialisedEvents == s.uninitialisedEvents && s'.incomplete == s.incomplete
    decreases |evs|
  {
    hide TickClocks, EventTimePs, AtTime;
    if evs != [] {
      DeliveryCountsNothing(boards, Deliver(boards, s, evs[0]), evs[1..]);
    }
  }

  /** Every counter grows by what was parsed for it. */
  lemma AdvanceCounts(boards: map<nat, BoardCfg>, s: DecState, p: Parsed)
    ensures var s' := Advance(boards, s, p);
            && s'.corrupt == s.corrupt + p.corrupt && s'.boardFail == s.boardFail + p.boardFail
            && s'.uninitialised == s.uninitialised + p.uninitialised
            && s'.uninitialisedEvents == s.uninitialisedEvents + p.uninitialisedEvents
            && s'.incomplete == s.incomplete + p.incomplete
  {
    DeliveryCountsNothing(boards, Count(s, p), p.events);
  }
}
