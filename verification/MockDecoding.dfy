/** Every buffer the mock prints is read back by the decoder, over runs of any length. */
module MockDecoding {
  import opened Words
  import opened Arithmetic
  import opened Clocks
  import opened DataFrames
  import opened Parsing
  import opened Stamping
  import opened DecodingLaws
  import opened Encoding
  import opened RoundTrip
  import opened FormatWords
  import opened Mock
  import opened MockRuns
  import opened EventRanges

  /** The number of samples of a trace that the decoder can be told: 16 bits. */
  predicate ShortTraces(opt: Options) { TraceLength(opt) < 0x1_0000 }

  /** How the mock's board is registered: an x730 with 2 ns ticks. */
  predicate Registered(boards: map<nat, BoardCfg>, opt: Options) {
    RegId(opt) in boards && boards[RegId(opt)] == BoardCfg(MockKind(opt.pha), 2000)
  }

  // ----- one aggregate -----

  /** The decoder computes the layout that the mock has in mind. */
  lemma FormatRead(opt: Options)
    requires ShortTraces(opt)
    ensures Resolve(MockKind(opt.pha), FormatWord(opt)) == PrintedLayout(opt)
  {
    hide Resolve, EncodeFormat, TraceLength;
    var k := MockKind(opt.pha);
    var f := Format(TraceLength(opt) / 8, 0, 0, Tracing(opt), false, true, true, false);
    EvenLength(opt);
    WholeUnits(opt);
    PrintedFormat(opt, f);
    FormatIsRead(k, f);
    ResolvedLayout(k, FormatWord(opt));
  }

  lemma PrintedFormat(opt: Options, f: Format)
    requires ShortTraces(opt) && f == Format(TraceLength(opt) / 8, 0, 0, Tracing(opt), false, true, true, false)
    ensures FormatOk(MockKind(opt.pha), f) && EncodeFormat(MockKind(opt.pha), f) == FormatWord(opt)
    ensures !Tracing(opt) ==> TraceLength(opt) == 0
  {
  }

  lemma WholeUnits(opt: Options)
    ensures TraceLength(opt) / 8 * 8 == TraceLength(opt)
  {
    hide Tracing;
    EightTimes(opt.traceSamples / 16);
  }

  lemma EightTimes(u: nat)
    ensures u * 16 / 8 * 8 == u * 16
  {
    var w := 2 * u;
    assert u * 16 == 8 * w && 8 * w / 8 == w;
  }

  /** An emission as the aggregate it is meant to be: one couple, the first. */
  ghost function AggregateOf(opt: Options, n: nat, em: Emission): Aggregate
    requires EmissionOk(opt, n, em) && |EncodedEvents(opt, n, em)| < 0xFFFF_FFFA
  {
    Aggregate(RegId(opt), em.fail, 1, 0, n % 0x80_0000, n % 0x1_0000_0000,
              [Couple(2 + |EncodedEvents(opt, n, em)|, FormatWord(opt), em.fields)])
  }

  lemma OnlyFirstCouple()
    ensures Couples(1) == [0]
  {
  }

  lemma ShortBody(opt: Options, n: nat, em: Emission)
    requires EmissionOk(opt, n, em) && ShortTraces(opt)
    ensures |EncodedEvents(opt, n, em)| < 0x3F_FFFA
  {
    hide EncodedEvents, EmissionOk, TraceLength;
    EncodedLength(opt, n, em) by {
      assert EmissionOk(opt, n, em);
    }
    assert |em.fields| <= 31 by {
      AtMost31(opt, n, em);
    }
    ProductMonotone(|em.fields|, 31, 2 + TraceLength(opt) / 2);
  }

  lemma AtMost31(opt: Options, n: nat, em: Emission)
    requires EmissionOk(opt, n, em)
    ensures 8 <= |em.fields| <= 31
  {
  }

  lemma CoupleIsPrinted(opt: Options, n: nat, em: Emission)
    requires EmissionOk(opt, n, em) && ShortTraces(opt) && |EncodedEvents(opt, n, em)| < 0x3F_FFFA
    ensures var c := AggregateOf(opt, n, em).couples[0]; var k := MockKind(opt.pha);
            && CoupleOk(k, c)
            && EncodeCouple(k, c) == [2 + |EncodedEvents(opt, n, em)|, FormatWord(opt)] + EncodedEvents(opt, n, em)
  {
    hide EmissionOk, FormatWord, EncodeEvents, Resolve, EventsOk, ExtractBits;
    PrintableEvents(opt, n, em);
    FormatRead(opt);
    FieldTable(2 + |EncodedEvents(opt, n, em)|);
  }

  lemma IsPrinted(boards: map<nat, BoardCfg>, opt: Options, n: nat, em: Emission)
    requires EmissionOk(opt, n, em) && ShortTraces(opt) && Registered(boards, opt)
    ensures |EncodedEvents(opt, n, em)| < 0x3F_FFFA
    ensures var a := AggregateOf(opt, n, em);
            AggregateOk(boards, a) && EncodeAggregate(boards, a) == Printed(opt, n, em)
  {
    hide EmissionOk, EncodedEvents, FormatWord, CoupleOk, EncodeCouple, ShortTraces, Couples;
    ShortBody(opt, n, em);
    CoupleIsPrinted(opt, n, em);
    OnlyFirstCouple();
    var a, k := AggregateOf(opt, n, em), MockKind(opt.pha);
    assert EncodeCouples(k, a.couples) == EncodeCouple(k, a.couples[0]) + EncodeCouples(k, a.couples[1..]);
    assert EncodeCouples(k, a.couples) == EncodeCouple(k, a.couples[0]);
  }

  /** The generated events of an emission, their time stamps still wrapped. */
  function RawOf(opt: Options, em: Emission): seq<RawEvent> {
    RoundTrip.EventsOf(MockKind(opt.pha), PrintedLayout(opt), RegId(opt), 0, em.fields)
  }

  /** Of a printed buffer the decoder reads exactly the generated events and the fail bit. */
  lemma EmissionParsed(boards: map<nat, BoardCfg>, opt: Options, n: nat, em: Emission)
    requires EmissionOk(opt, n, em) && ShortTraces(opt) && Registered(boards, opt)
    ensures |EncodedEvents(opt, n, em)| < 0x3F_FFFA
    ensures ParseBuffer(boards, Printed(opt, n, em)) == Parsed(RawOf(opt, em), 0, BitOf(em.fail), 0, 0, 0)
  {
    hide EmissionOk, EncodedEvents, FormatWord, AggregateOk, EncodeAggregate, Printed, ParseAggregate, Couples, ShortTraces,
         RoundTrip.EventsOf;
    IsPrinted(boards, opt, n, em);
    OnlyFirstCouple();
    FormatRead(opt);
    var a := AggregateOf(opt, n, em);
    AggregateRead(boards, a);
    AggregateFirst(boards, EncodeAggregate(boards, a), []);
    assert EncodeAggregate(boards, a) + [] == EncodeAggregate(boards, a);
    var c := a.couples[0];
    var k := MockKind(opt.pha);
    assert MeaningOfCouples(k, a.board, Couples(a.mask), a.couples)
        == Join(MeaningOfCouple(k, a.board, 0, c), NOTHING);
    JoinNothing(MeaningOfCouple(k, a.board, 0, c));
    JoinNothing(ParseAggregate(boards, EncodeAggregate(boards, a)));
    assert NOTHING.events + RawOf(opt, em) == RawOf(opt, em);
  }

  lemma RawIsStamped(opt: Options, n: nat, em: Emission)
    requires EmissionOk(opt, n, em)
    ensures StampedWith(RawOf(opt, em), RegId(opt), 31, em.ticks)
    ensures forall i :: 0 <= i < |RawOf(opt, em)| ==> FinePart(RawOf(opt, em)[i], 2000) == 0
  {
    hide TickOf, PulseTrace, SamplesOf;
    PowerTable();
    forall i | 0 <= i < |em.fields|
      ensures Generated(opt, i, em.ticks[i], em.fields[i])
    {
    }
  }

  /** What is read of event `e`, by numbers: channels 0 and 1 in turn, the low 31 bits of the tick, an energy
      about 9600 or a long charge about 6000 and half of it as short charge, the pulse as trace, no flag but
      pile-up. */
  lemma EventByNumbers(opt: Options, n: nat, em: Emission, e: nat)
    requires EmissionOk(opt, n, em) && e < |em.fields|
    ensures |RawOf(opt, em)| == |em.fields| == |em.ticks|
    ensures var r := RawOf(opt, em)[e];
            && r.board == opt.boardId % 32 && r.channel == e % 2
            && r.timed && r.timestamp == em.ticks[e] % 0x8000_0000 && r.fineBits == 0
            && !r.lost && !r.satu
            && (opt.pha ==> 8000 <= r.energy <= 11198 && r.qshort == 0 && r.qlong == 0)
            && (!opt.pha ==> r.energy == 0 && 4800 <= r.qlong <= 7197 && r.qshort == r.qlong / 2)
            && |r.wave| == (if opt.waveforms && opt.traceSamples >= 2 then opt.traceSamples / 16 * 16 else 0)
            && forall i :: 0 <= i < |r.wave| ==> r.wave[i] == Pulse(i)
  {
    hide TickOf, Pulse, PulseTrace, SamplesOf, Pow2;
    PowerTable();
    assert Generated(opt, e, em.ticks[e], em.fields[e]);
    PulseSamples(opt);
  }

  lemma PulseSamples(opt: Options)
    ensures var wave := SamplesOf(PrintedLayout(opt), PulseTrace(opt));
            && |wave| == TraceLength(opt)
            && forall i :: 0 <= i < |wave| ==> wave[i] == Pulse(i)
  {
    hide Pulse, TraceLength;
    EvenLength(opt);
  }

  /** When event `e` fires: channel 0 at even spacing from the start of the period, channel 1 behind it by at
      most half a step or by ten ticks, the coincidence. */
  lemma TicksByNumbers(opt: Options, n: nat, em: Emission, e: nat)
    requires EmissionOk(opt, n, em) && e < |em.fields|
    ensures |em.ticks| == |em.fields|
    ensures e % 2 == 0 ==> em.ticks[e] == BaseTick(opt, n) + e / 2 * PairStep(opt, |em.fields|)
    ensures e % 2 == 1 ==> em.ticks[e - 1] < em.ticks[e]
    ensures e % 2 == 1 && em.ticks[e] != em.ticks[e - 1] + 10 ==> 2 * (em.ticks[e] - em.ticks[e - 1] - 1) <= PairStep(opt, |em.fields|)
  {
    hide BaseTick, PairStep, Generated;
    assert TickOf(opt, n, |em.fields|, e, em.ticks[e]);
    if e % 2 == 1 {
      assert TickOf(opt, n, |em.fields|, e - 1, em.ticks[e - 1]);
      assert (e - 1) / 2 == e / 2;
    }
  }

  // ----- whole runs -----

  /** The buffer that a read returns for an emission. */
  ghost predicate Prints(opt: Options, n: nat, em: Emission, buf: seq<Word>) {
    EmissionOk(opt, n, em) && |EncodedEvents(opt, n, em)| < 0xFFFF_FFFA && buf == Printed(opt, n, em)
  }

  /** Emissions by their numbers, and their buffers. */
  ghost predicate RunOk(opt: Options, ns: seq<nat>, ems: seq<Emission>, bufs: seq<seq<Word>>) {
    |ns| == |ems| == |bufs| && forall i :: 0 <= i < |ns| ==> Prints(opt, ns[i], ems[i], bufs[i])
  }

  /** The numbers grow, and each emission is close enough to the one before; `prev` is the number before
      the first, or -1. */
  predicate GapsShort(opt: Options, prev: int, ns: seq<nat>)
    decreases |ns|
  {
    ns == [] || (ShortGap(opt, prev, ns[0]) && GapsShort(opt, ns[0], ns[1..]))
  }

  /** A run of up to 2^53 ns. */
  predicate InTime(opt: Options, ns: seq<nat>) {
    forall i :: 0 <= i < |ns| ==> ns[i] * Period(opt) <= 0x20_0000_0000_0000
  }

  /** What was generated: every event at 2000 ps times its unwrapped tick. */
  function GeneratedEvents(opt: Options, ems: seq<Emission>): seq<DecodedEvent>
    requires forall i :: 0 <= i < |ems| ==> |ems[i].ticks| == |ems[i].fields|
    decreases |ems|
  {
    if ems == [] then []
    else AtTimes(RawOf(opt, ems[0]), ems[0].ticks, 2000) + GeneratedEvents(opt, ems[1..])
  }

  function Fails(ems: seq<Emission>): nat
    decreases |ems|
  {
    if ems == [] then 0 else BitOf(ems[0].fail) + Fails(ems[1..])
  }

  lemma OneEmission(boards: map<nat, BoardCfg>, s: DecState, opt: Options, prev: int, n: nat, em: Emission, buf: seq<Word>)
    requires Prints(opt, n, em, buf) && ShortTraces(opt) && Registered(boards, opt)
    requires Behind(opt, prev, ClockOf(s.clocks, RegId(opt))) && ShortGap(opt, prev, n)
    requires n * Period(opt) <= 0x20_0000_0000_0000
    ensures |em.ticks| == |em.fields|
    ensures var s' := Advance(boards, s, ParseBuffer(boards, buf));
            && s' == s.(clocks := s'.clocks, boardFail := s.boardFail + BitOf(em.fail),
                        events := s.events + AtTimes(RawOf(opt, em), em.ticks, 2000))
            && Behind(opt, n, ClockOf(s'.clocks, RegId(opt)))
  {
    hide EmissionOk, EncodedEvents, Printed, ParseBuffer, Behind, ShortGap, BaseTick, Trackable, DeliverAll, AtTimes, RawOf, ClockInv, Room,
         Pow2, Period;
    PowerTable();
    PeriodBounds(opt);
    BasesAdvance(opt, n);
    var c := ClockOf(s.clocks, RegId(opt));
    EmissionParsed(boards, opt, n, em);
    RawIsStamped(opt, n, em);
    EmissionIsTrackable(opt, prev, n, em, c);
    TimesRecovered(boards, Count(s, Parsed(RawOf(opt, em), 0, BitOf(em.fail), 0, 0, 0)), RawOf(opt, em), em.ticks, RegId(opt), 31);
    assert |RawOf(opt, em)| == |em.fields| by {
      RawCount(opt, em);
    }
  }

  lemma RawCount(opt: Options, em: Emission)
    ensures |RawOf(opt, em)| == |em.fields|
  {
  }

  lemma SameNumberOfTicks(opt: Options, ns: seq<nat>, ems: seq<Emission>, bufs: seq<seq<Word>>)
    requires RunOk(opt, ns, ems, bufs)
    ensures forall i :: 0 <= i < |ems| ==> |ems[i].ticks| == |ems[i].fields|
  {
    hide Printed, EncodedEvents, TickOf, Generated;
  }

  /** The mock and the decoder compose over any run, buffers lost on the way included, as long as the gaps
      stay short: at every rate, for every random choice, exactly the generated events of the buffers that
      arrived come out, each at its true time, although the counter wraps every 4.3 s; nothing is counted
      but the fail bits. */
  lemma {:induction false} KeptRunDecodes(boards: map<nat, BoardCfg>, s: DecState, opt: Options, prev: int, ns: seq<nat>,
                                          ems: seq<Emission>, bufs: seq<seq<Word>>)
    requires RunOk(opt, ns, ems, bufs) && ShortTraces(opt) && Registered(boards, opt)
    requires Behind(opt, prev, ClockOf(s.clocks, RegId(opt))) && GapsShort(opt, prev, ns) && InTime(opt, ns)
    ensures forall i :: 0 <= i < |ems| ==> |ems[i].ticks| == |ems[i].fields|
    ensures var s' := AfterBuffers(boards, s, bufs);
            s' == s.(clocks := s'.clocks, boardFail := s.boardFail + Fails(ems),
                     events := s.events + GeneratedEvents(opt, ems))
    decreases |ems|
  {
    hide Prints, ParseBuffer, Behind, ShortGap, Advance, AtTimes, RawOf, Period, ShortTraces, TraceLength;
    SameNumberOfTicks(opt, ns, ems, bufs);
    if ems != [] {
      assert Prints(opt, ns[0], ems[0], bufs[0]);
      OneEmission(boards, s, opt, prev, ns[0], ems[0], bufs[0]);
      var s1 := Advance(boards, s, ParseBuffer(boards, bufs[0]));
      KeptRunDecodes(boards, s1, opt, ns[0], ns[1..], ems[1..], bufs[1..]);
    }
  }

  /** The numbers from `n` on. */
  function Numbers(n: nat, count: nat): seq<nat> { seq(count, i requires 0 <= i < count => n + i) }

  /** Without losses the gaps are short at every rate. */
  lemma {:induction false} NumbersGapsShort(opt: Options, n: nat, count: nat)
    ensures GapsShort(opt, n as int - 1, Numbers(n, count))
    decreases count
  {
    hide ShortGap;
    if count > 0 {
      ConsecutiveIsShort(opt, n);
      NumbersGapsShort(opt, n + 1, count - 1);
      assert Numbers(n, count)[1..] == Numbers(n + 1, count - 1);
    }
  }

  lemma NumbersInTime(opt: Options, n: nat, count: nat)
    requires (n + count) * Period(opt) <= 0x20_0000_0000_0000
    ensures InTime(opt, Numbers(n, count))
  {
    hide Period;
    var ns := Numbers(n, count);
    forall i | 0 <= i < |ns|
      ensures ns[i] * Period(opt) <= 0x20_0000_0000_0000
    {
      ProductMonotone(ns[i], n + count, Period(opt));
    }
  }

  /** The same without losses, from any emission on. */
  lemma MockRunDecodes(boards: map<nat, BoardCfg>, s: DecState, opt: Options, n: nat, ems: seq<Emission>, bufs: seq<seq<Word>>)
    requires RunOk(opt, Numbers(n, |ems|), ems, bufs) && ShortTraces(opt) && Registered(boards, opt)
    requires Behind(opt, n as int - 1, ClockOf(s.clocks, RegId(opt)))
    requires (n + |ems|) * Period(opt) <= 0x20_0000_0000_0000
    ensures forall i :: 0 <= i < |ems| ==> |ems[i].ticks| == |ems[i].fields|
    ensures var s' := AfterBuffers(boards, s, bufs);
            s' == s.(clocks := s'.clocks, boardFail := s.boardFail + Fails(ems),
                     events := s.events + GeneratedEvents(opt, ems))
  {
    hide RunOk, AfterBuffers, GeneratedEvents, Fails, ShortTraces, Registered, Period, Behind, GapsShort;
    NumbersGapsShort(opt, n, |ems|);
    NumbersInTime(opt, n, |ems|);
    KeptRunDecodes(boards, s, opt, n as int - 1, Numbers(n, |ems|), ems, bufs);
  }

  /** The same from the start, losses included, with a decoder that has seen nothing of the board. */
  lemma FreshRunDecodes(boards: map<nat, BoardCfg>, s: DecState, opt: Options, ns: seq<nat>, ems: seq<Emission>, bufs: seq<seq<Word>>)
    requires RunOk(opt, ns, ems, bufs) && ShortTraces(opt) && Registered(boards, opt)
    requires ClockOf(s.clocks, RegId(opt)) == FRESH && GapsShort(opt, -1, ns) && InTime(opt, ns)
    ensures forall i :: 0 <= i < |ems| ==> |ems[i].ticks| == |ems[i].fields|
    ensures AfterBuffers(boards, s, bufs).events == s.events + GeneratedEvents(opt, ems)
  {
    hide RunOk, AfterBuffers, GeneratedEvents, Fails, ShortTraces, Registered, Period, GapsShort, InTime;
    KeptRunDecodes(boards, s, opt, -1, ns, ems, bufs);
  }

  // ----- long traces -----

  lemma FirstWave(opt: Options, n: nat, em: Emission)
    requires EmissionOk(opt, n, em)
    ensures RawOf(opt, em) != [] && |RawOf(opt, em)[0].wave| == TraceLength(opt)
  {
    hide TickOf, Generated, EventOf, PrintedLayout;
    var f := em.fields[0];
    FirstTrace(opt, n, em);
    WaveLength(opt, f);
    assert RawOf(opt, em)[0] == EventOf(MockKind(opt.pha), PrintedLayout(opt), RegId(opt), 0, f);
  }

  lemma FirstTrace(opt: Options, n: nat, em: Emission)
    requires EmissionOk(opt, n, em)
    ensures em.fields != [] && em.fields[0].trace == PulseTrace(opt)
  {
    hide TickOf, PulseTrace, InPeak;
    assert Generated(opt, 0, em.ticks[0], em.fields[0]);
  }

  lemma WaveLength(opt: Options, f: Fields)
    requires f.trace == PulseTrace(opt)
    ensures |EventOf(MockKind(opt.pha), PrintedLayout(opt), RegId(opt), 0, f).wave| == TraceLength(opt)
  {
    hide Pulse, PulseTrace, Pow2, RegId, TraceLength, SamplesOf;
    PulseTraceOk(opt);
    SingleTrace(PrintedLayout(opt), f.trace);
    NoTrace(opt);
  }

  lemma SingleTrace(l: DataLayout, ts: seq<TraceWord>)
    ensures !l.dualTrace ==> |SamplesOf(l, ts)| == 2 * |ts|
  {
  }

  lemma NoTrace(opt: Options)
    ensures !Tracing(opt) ==> TraceLength(opt) == 0
  {
  }

  /** The sample count travels in 16 bits: a printed buffer is read back exactly when its traces stay
      below 65536 samples. */
  lemma ReadBackIffShort(boards: map<nat, BoardCfg>, opt: Options, n: nat, em: Emission)
    requires EmissionOk(opt, n, em) && Registered(boards, opt) && |EncodedEvents(opt, n, em)| < 0xFFFF_FFFA
    ensures ParseBuffer(boards, Printed(opt, n, em)).events == RawOf(opt, em) <==> ShortTraces(opt)
  {
    hide EncodedEvents, Printed, ParseBuffer, RawOf, EmissionOk;
    if ShortTraces(opt) {
      EmissionParsed(boards, opt, n, em);
    } else {
      EventsInRange(boards, Printed(opt, n, em));
      FirstWave(opt, n, em);
    }
  }
}
