/** The synthetic digitizer: it prints valid aggregates whose time stamps follow the wall clock and
    wrap, and every bit of them is read back by the decoder. */
module Mock {
  import opened Words
  import opened Arithmetic
  import opened DataFrames
  import opened Parsing
  import opened Stamping
  import opened Encoding
  import opened RoundTrip

  /** The options that shape an aggregate. */
  datatype Options = Options(ratePerSec: nat, waveforms: bool, traceSamples: nat, failEvery: nat, pha: bool, boardId: nat)

  const NS_PER_SECOND: nat := 1_000_000_000
  const TICK_NS: nat := 2                 // nsPerSample
  const COUNTER_RANGE: nat := 0x8000_0000 // the 31-bit counter of the x730

  /** The "MOCK-V1730" board. */
  function MockKind(pha: bool): FrameKind { FrameKind(pha, Model(true, false, false)) }

  lemma MockModel()
    ensures ModelOf("MOCK-V1730") == Model(true, false, false)
  {
    hide Contains;
    var name := "MOCK-V1730";
    assert name == "MOCK-V1" + "730";
    SuffixContained("MOCK-V1", "730");
    MissingCharacter(name, "724", 1);
    MissingCharacter(name, "781", 1);
    MissingCharacter(name, "782", 1);
    MissingCharacter(name, "720", 1);
  }

  lemma {:induction false} SuffixContained(a: string, p: string)
    ensures Contains(a + p, p)
    decreases |a|
  {
    if a == [] {
      assert (a + p)[..|p|] == p;
    } else {
      assert (a + p)[1..] == a[1..] + p;
      SuffixContained(a[1..], p);
    }
  }

  lemma {:induction false} MissingCharacter(s: string, p: string, j: nat)
    requires j < |p| && p[j] !in s
    ensures !Contains(s, p)
    decreases |s|
  {
    if |p| <= |s| {
      assert s[..|p|] != p by {
        assert s[..|p|][j] == s[j];
      }
      MissingCharacter(s[1..], p, j);
    }
  }

  function RegId(opt: Options): nat { opt.boardId % 32 }

  function Period(opt: Options): nat {
    NS_PER_SECOND / (if opt.ratePerSec > 0 then opt.ratePerSec else 1)
  }

  predicate Tracing(opt: Options) { opt.waveforms && opt.traceSamples >= 2 }

  /** Samples per trace, a multiple of 16. */
  function TraceLength(opt: Options): nat {
    if Tracing(opt) then opt.traceSamples / 16 * 16 else 0
  }

  /** The data-format word: charge or energy, time stamp, and with a trace its length in units of 8. */
  function FormatWord(opt: Options): Word {
    0x6000_0000 + (if Tracing(opt) then 0x800_0000 + TraceLength(opt) / 8 % 0x1_0000 else 0)
  }

  /** The event layout the mock has in mind. */
  function PrintedLayout(opt: Options): DataLayout {
    DataLayout(2 + TraceLength(opt) / 2, TraceLength(opt), false, Tracing(opt), true, opt.pha, !opt.pha, false,
               true, true, 0, BITS_0_30, if opt.pha then BITS_16_20 else BITS_0_31, BITS_0_13, 31, [], [])
  }

  /** One sample of the synthetic pulse: flat, a quick rise, a linear decay, clipped to the ADC range. */
  function Pulse(i: nat): (v: nat)
    ensures v < 0x4000
  {
    Clip(if 20 <= i < 30 then 1000 + (i - 20) * 250 else if i >= 30 then 3500 - (i - 30) * 30 else 1000)
  }

  function Clip(v: int): (c: nat)
    ensures 300 <= c <= 16383
  {
    if v < 300 then 300 else if v > 16383 then 16383 else v
  }

  function PulseTrace(opt: Options): seq<TraceWord> {
    seq(TraceLength(opt) / 2, i requires 0 <= i < TraceLength(opt) / 2 => TraceWord(Pulse(2 * i), 0, Pulse(2 * i + 1), 0))
  }

  // ----- the clock of the generator -----

  /** First tick of the period that emission number `n` covers. */
  function BaseTick(opt: Options, n: nat): nat {
    var now := (n + 1) * Period(opt) / TICK_NS;
    var span := Period(opt) / TICK_NS;
    if now > span then now - span else 0
  }

  function PairStep(opt: Options, nEvents: nat): nat {
    var pairs := (nEvents + 1) / 2;
    var span := Period(opt) / TICK_NS;
    if pairs > 0 && span / pairs > 0 then span / pairs else 1
  }

  /** The tick at which event `e` of an emission may fire: channel 0 at even spacing, channel 1 at most
      ten ticks or half a step later. */
  predicate TickOf(opt: Options, n: nat, nEvents: nat, e: nat, t: nat) {
    var even := BaseTick(opt, n) + (e / 2) * PairStep(opt, nEvents);
    if e % 2 == 0 then t == even
    else t == even + 10 || even + 1 <= t <= even + 1 + PairStep(opt, nEvents) / 2
  }

  /** The synthetic peaks: an energy from 8000 to 11198, or a long charge from 4800 to 7197 and half of it
      as short charge. */
  predicate InPeak(pha: bool, f: Fields) {
    if pha then f.upper == 0 && 8000 <= f.charge <= 11198
    else 4800 <= f.upper <= 7197 && f.charge == f.upper / 2
  }

  /** The fields of one generated event, `t` being its unwrapped tick. */
  predicate Generated(opt: Options, e: nat, t: nat, f: Fields) {
    && f.ts == t % COUNTER_RANGE && f.above == e % 2
    && f.trace == PulseTrace(opt)
    && f.spareData == 0 && InPeak(opt.pha, f)
  }

  /** What one emission carries: 8 to 31 events and their ticks. */
  datatype Emission = Emission(fail: bool, fields: seq<Fields>, ticks: seq<nat>)

  predicate EmissionOk(opt: Options, n: nat, em: Emission) {
    && 8 <= |em.fields| <= 31 && |em.ticks| == |em.fields|
    && forall e :: 0 <= e < |em.fields| ==>
         TickOf(opt, n, |em.fields|, e, em.ticks[e]) && Generated(opt, e, em.ticks[e], em.fields[e])
  }

  lemma PrintableEvents(opt: Options, n: nat, em: Emission)
    requires EmissionOk(opt, n, em)
    ensures EventsOk(MockKind(opt.pha), PrintedLayout(opt), em.fields)
  {
    hide TickOf;
    forall e | 0 <= e < |em.fields|
      ensures EventOk(MockKind(opt.pha), PrintedLayout(opt), em.fields[e])
    {
      assert Generated(opt, e, em.ticks[e], em.fields[e]);
    }
  }

  /** The words of an emission. */
  ghost function Printed(opt: Options, n: nat, em: Emission): seq<Word>
    requires EmissionOk(opt, n, em) && |EncodedEvents(opt, n, em)| < 0xFFFF_FFFA
  {
    var events := EncodedEvents(opt, n, em);
    [0xA000_0000 + (6 + |events|) % 0x1000_0000, 0x800_0000 * RegId(opt) + 0x400_0000 * BitOf(em.fail) + 1,
     n % 0x80_0000, n % 0x1_0000_0000, 2 + |events|, FormatWord(opt)] + events
  }

  ghost function EncodedEvents(opt: Options, n: nat, em: Emission): seq<Word>
    requires EmissionOk(opt, n, em)
  {
    PrintableEvents(opt, n, em);
    EncodeEvents(MockKind(opt.pha), PrintedLayout(opt), em.fields)
  }

  /** Traces small enough for the length of an aggregate to fit 32 bits, whatever the number of events; with
      longer ones the 32-bit sum by which the code sizes its buffer wraps. */
  predicate Affordable(opt: Options) { TraceLength(opt) <= 0x1080_0000 }

  lemma {:induction false} EventsLength(k: FrameKind, l: DataLayout, fs: seq<Fields>, size: nat)
    requires EventsOk(k, l, fs)
    requires forall i :: 0 <= i < |fs| ==> |EncodeEvent(k, l, fs[i])| == size
    ensures |EncodeEvents(k, l, fs)| == |fs| * size
    decreases |fs|
  {
    hide EncodeEvent, EventOk;
    if fs != [] {
      EventsLength(k, l, fs[1..], size);
      assert |fs| * size == size + (|fs| - 1) * size;
    }
  }

  lemma EncodedLength(opt: Options, n: nat, em: Emission)
    requires EmissionOk(opt, n, em)
    ensures |EncodedEvents(opt, n, em)| == |em.fields| * (2 + TraceLength(opt) / 2)
    ensures Affordable(opt) ==> |EncodedEvents(opt, n, em)| < 0xFFFF_FFFA
  {
    var k, l, size := MockKind(opt.pha), PrintedLayout(opt), 2 + TraceLength(opt) / 2;
    PrintableEvents(opt, n, em);
    forall i | 0 <= i < |em.fields|
      ensures |EncodeEvent(k, l, em.fields[i])| == size
    {
      assert Generated(opt, i, em.ticks[i], em.fields[i]);
      EventLength(opt, em.fields[i]);
    }
    EventsLength(k, l, em.fields, size);
    ProductMonotone(|em.fields|, 31, size);
  }

  lemma EventLength(opt: Options, f: Fields)
    requires EventOk(MockKind(opt.pha), PrintedLayout(opt), f)
    ensures |EncodeEvent(MockKind(opt.pha), PrintedLayout(opt), f)| == 2 + TraceLength(opt) / 2
  {
    hide EncodeTime, EncodeData, EncodeTraceWord;
  }

  // ----- the numbers of the generator -----

  /** The period is a second over the rate, rounded down; rate 0 counts as 1. */
  lemma PeriodIsSecondOverRate(opt: Options)
    ensures var rate := if opt.ratePerSec == 0 then 1 else opt.ratePerSec;
            rate * Period(opt) <= 1_000_000_000 < rate * (Period(opt) + 1)
  {
    var rate := if opt.ratePerSec == 0 then 1 else opt.ratePerSec;
    Division(1_000_000_000, rate);
    PeriodsIsProduct(1_000_000_000 / rate, rate);
    assert rate * (Period(opt) + 1) == rate * Period(opt) + rate;
  }

  /** The time stamps follow the wall clock: emission number n starts within a tick of n periods. */
  lemma BaseFollowsClock(opt: Options, n: nat)
    ensures n * Period(opt) - 1 <= 2 * BaseTick(opt, n) <= n * Period(opt) + 1
  {
    var p := Period(opt);
    assert (n + 1) * p == n * p + p;
    assert n * p >= 0;
    HalfDifference(n * p + p, p);
  }

  lemma HalfDifference(a: nat, b: nat)
    requires b <= a
    ensures a - b - 1 <= 2 * (a / 2 - b / 2) <= a - b + 1
  {
  }

  /** The pairs of an emission spread over its whole period. */
  lemma PairsFillPeriod(opt: Options, nEvents: nat)
    requires nEvents > 0
    ensures var pairs, span := (nEvents + 1) / 2, Period(opt) / 2;
            if pairs <= span then pairs * PairStep(opt, nEvents) <= span < pairs * (PairStep(opt, nEvents) + 1)
            else PairStep(opt, nEvents) == 1
  {
    var pairs, span := (nEvents + 1) / 2, Period(opt) / 2;
    Division(span, pairs);
    var q := span / pairs;
    PeriodsIsProduct(q, pairs);
    assert pairs * (q + 1) == q * pairs + pairs;
    if pairs <= span {
      AtLeastOnce(span, pairs);
    } else {
      DivisionUnique(span, pairs, 0, span);
    }
  }

  lemma AtLeastOnce(a: nat, b: nat)
    requires 0 < b <= a
    ensures a / b > 0
  {
    Division(a, b);
    PeriodsIsProduct(a / b, b);
  }

  /** An event is two words longer than half its trace. There is a trace exactly when waveforms are wanted
      and two samples or more are asked for; it has as many as asked for, less the odd ones above a multiple
      of 16, and the format word says so. */
  lemma TraceByOptions(opt: Options)
    ensures var l := PrintedLayout(opt);
            && l.hasTrace == (opt.waveforms && opt.traceSamples >= 2)
            && l.numSamples % 16 == 0 && l.evtSize == 2 + l.numSamples / 2
            && (l.hasTrace ==> l.numSamples <= opt.traceSamples < l.numSamples + 16)
            && (!l.hasTrace ==> l.numSamples == 0 && FormatWord(opt) == 0x6000_0000)
            && (l.hasTrace ==> FormatWord(opt) == 0x6800_0000 + l.numSamples / 8 % 0x1_0000)
  {
    WholeSixteens(opt.traceSamples);
  }

  lemma WholeSixteens(x: nat)
    ensures x / 16 * 16 % 16 == 0 && x / 16 * 16 <= x < x / 16 * 16 + 16
  {
    PeriodsIsProduct(x / 16, 16);
    DivisionUnique(x / 16 * 16, 16, x / 16, 0);
  }

  /** A flat baseline of 20 samples, ten rising by 250 each, then a fall by 30 a sample down to 300. */
  lemma PulseShape(i: nat)
    ensures i < 20 ==> Pulse(i) == 1000
    ensures 20 <= i < 29 ==> Pulse(i + 1) == Pulse(i) + 250
    ensures Pulse(20) == 1000 && Pulse(30) == 3500
    ensures 30 <= i && Pulse(i) >= 330 ==> Pulse(i + 1) == Pulse(i) - 30
    ensures 30 <= i ==> 300 <= Pulse(i + 1) <= Pulse(i) <= 3500
  {
  }

  // ----- the digitizer -----

  lemma {:induction false} EncodeEventsAppend(k: FrameKind, l: DataLayout, fs: seq<Fields>, f: Fields)
    requires EventsOk(k, l, fs) && EventOk(k, l, f)
    ensures EventsOk(k, l, fs + [f]) && EncodeEvents(k, l, fs + [f]) == EncodeEvents(k, l, fs) + EncodeEvent(k, l, f)
    decreases |fs|
  {
    hide EncodeEvent, EventOk;
    if fs == [] {
      assert [f][1..] == [] && fs + [f] == [f];
      assert EncodeEvents(k, l, []) == [];
    } else {
      assert (fs + [f])[1..] == fs[1..] + [f];
      EncodeEventsAppend(k, l, fs[1..], f);
    }
  }

  lemma PulseTraceOk(opt: Options)
    ensures TraceLength(opt) == 2 * |PulseTrace(opt)|
    ensures forall i :: 0 <= i < |PulseTrace(opt)| ==> TraceWordOk(MockKind(opt.pha), PulseTrace(opt)[i])
  {
    hide Pulse, Clip, TraceLength;
    EvenLength(opt);
  }

  lemma EvenLength(opt: Options)
    ensures TraceLength(opt) == 2 * (TraceLength(opt) / 2)
  {
    hide Tracing;
    SixteenIsEven(opt.traceSamples / 16);
  }

  lemma SixteenIsEven(u: nat)
    ensures u * 16 == 2 * (u * 16 / 2)
  {
    Half(u * 8);
  }

  lemma Half(w: nat)
    ensures (2 * w) / 2 == w
  {
  }

  lemma PulseWord(opt: Options, i: nat)
    requires i < |PulseTrace(opt)|
    ensures TraceWordOk(MockKind(opt.pha), PulseTrace(opt)[i])
    ensures EncodeTraceWord(MockKind(opt.pha), PulseTrace(opt)[i]) ==
            Pulse(2 * i) % 0x4000 + 0x1_0000 * (Pulse(2 * i + 1) % 0x4000)
  {
    hide Pulse, Clip;
  }

  // The three steps of the xorshift generator; none maps a non-zero state to zero.

  function XorLeft13(x: bv32): (y: bv32)
    ensures x != 0 ==> y != 0
  {
    x ^ (x << 13)
  }

  function XorRight17(x: bv32): (y: bv32)
    ensures x != 0 ==> y != 0
  {
    x ^ (x >> 17)
  }

  function XorLeft5(x: bv32): (y: bv32)
    ensures x != 0 ==> y != 0
  {
    x ^ (x << 5)
  }

  function NextState(x: bv32): (y: bv32)
    ensures x != 0 ==> y != 0
  {
    XorLeft5(XorRight17(XorLeft13(x)))
  }

  function Drawn(x: bv32): (r: nat)
    ensures r < 0x1_0000_0000
  {
    x as int
  }

  /** The lowest and the highest bit show the three shifts. */
  lemma XorShiftBits()
    ensures NextState(1) == 0x4_2021 && NextState(0x8000_0000) == 0x8008_4000
  {
  }

  lemma EnergyPeak(a: nat, b: nat)
    ensures 8000 <= (8000 + a % 1600 + b % 1600) % 0x8000 <= 11198
  {
  }

  lemma ChargePeak(a: nat, b: nat, c: nat)
    ensures var q := (4800 + a % 800 + b % 800 + c % 800) % 0x1_0000; 4800 <= q <= 7197 && q / 2 % 0x8000 == q / 2
  {
  }

  /** A peak's data word fits, and its parts stand side by side. */
  lemma DataPrinted(pha: bool, f: Fields)
    requires f.spareData == 0 && if pha then f.upper == 0 && 8000 <= f.charge <= 11198
                                 else 4800 <= f.upper <= 7197 && f.charge == f.upper / 2
    ensures InPeak(pha, f) && DataOk(MockKind(pha), f)
    ensures EncodeData(MockKind(pha), f) == f.charge + 0x8000 * (if f.pileup then 1 else 0) + 0x1_0000 * f.upper
  {
  }

  class MockDigitizer {
    const opt: Options
    var running: bool
    var lfsr: bv32        // pseudo-random state
    var counter: nat      // aggregates emitted since the start
    var nextEmit: int     // when the next one is due, in ns
    var started: int      // time stamps count from here

    ghost predicate Valid()
      reads this
    {
      nextEmit == started + counter * Period(opt)
    }

    constructor (opt: Options)
      ensures this.opt == opt && Valid() && !running && lfsr == 0x1234567
    {
      this.opt := opt;
      running, lfsr, counter, nextEmit, started := false, 0x1234567, 0, 0, 0;
    }

    method Start(now: int)
      modifies `running, `counter, `nextEmit, `started
      ensures Valid() && running && counter == 0 && started == now == nextEmit
    {
      running, counter := true, 0;
      nextEmit := now;
      started := nextEmit;
    }

    method Stop()
      modifies `running
      ensures !running
    {
      running := false;
    }

    /** The generator never falls into its fixed point 0. */
    method NextRand() returns (r: nat)
      modifies `lfsr
      ensures r < 0x1_0000_0000
      ensures lfsr == NextState(old(lfsr)) && r == Drawn(lfsr)
    {
      hide XorLeft13, XorRight17, XorLeft5;
      lfsr := XorLeft13(lfsr);
      lfsr := XorRight17(lfsr);
      lfsr := XorLeft5(lfsr);
      r := Drawn(lfsr);
    }

    method TraceWords() returns (ws: seq<Word>)
      ensures ws == EncodeTrace(MockKind(opt.pha), PulseTrace(opt))
    {
      hide Pulse, Clip, EncodeTraceWord, TraceWordOk, PulseTrace, TraceLength;
      ws := [];
      ghost var trace := PulseTrace(opt);
      PulseTraceOk(opt);
      var s, i := 0, 0;
      while s < TraceLength(opt)
        invariant s == 2 * i && i <= |trace| && |ws| == i
        invariant forall j :: 0 <= j < i ==> ws[j] == EncodeTraceWord(MockKind(opt.pha), trace[j])
      {
        PulseWord(opt, i);
        ws := ws + [Pulse(s) % 0x4000 + 0x1_0000 * (Pulse(s + 1) % 0x4000)];
        s, i := s + 2, i + 1;
      }
    }

    /** The data word of an event: energy for PHA, the two charges for PSD. */
    method DataWord() returns (w: Word, ghost f: Fields)
      modifies `lfsr
      ensures f.spareData == 0 && InPeak(opt.pha, f)
      ensures DataOk(MockKind(opt.pha), f) && w == EncodeData(MockKind(opt.pha), f)
    {
      hide NextState, Drawn, InPeak, DataOk, EncodeData, MockKind;
      var draw := NextRand();
      var pileup := draw % 20 == 0;
      var a := NextRand();
      var b := NextRand();
      var charge, upper := 0, 0;
      if opt.pha {
        charge := (8000 + a % 1600 + b % 1600) % 0x8000;
        EnergyPeak(a, b);
      } else {
        var c := NextRand();
        upper := (4800 + a % 800 + b % 800 + c % 800) % 0x1_0000;
        charge := upper / 2 % 0x8000;
        ChargePeak(a, b, c);
      }
      w := charge + 0x8000 * (if pileup then 1 else 0) + 0x1_0000 * upper;
      f := Fields(0, 0, [], 0, 0, false, false, 0, 0, 0, charge, pileup, upper, 0);
      DataPrinted(opt.pha, f);
    }

    /** Prints event `e`: its time word, trace and data word. The ghost results are its fields and tick. */
    method EventOfPair(ghost n: nat, ghost nEvents: nat, e: nat, base: nat, pairStep: nat)
      returns (ws: seq<Word>, ghost f: Fields, ghost t: nat)
      requires base == BaseTick(opt, n) && pairStep == PairStep(opt, nEvents)
      modifies `lfsr
      ensures TickOf(opt, n, nEvents, e, t) && Generated(opt, e, t, f)
      ensures EventOk(MockKind(opt.pha), PrintedLayout(opt), f)
      ensures ws == EncodeEvent(MockKind(opt.pha), PrintedLayout(opt), f)
    {
      hide NextState, Drawn, TickOf, Generated, EncodeEvent, EventOk, DataOk, EncodeData, EncodeTrace, PulseTrace, PairStep, BaseTick, PrintedLayout;
      var chBit := e % 2;
      var tick, jitter := base + (e / 2) * pairStep, 0;
      if chBit == 1 {
        var draw := NextRand();
        if draw % 3 == 0 {
          jitter := 10;
        } else {
          draw := NextRand();
          jitter := 1 + draw % (pairStep / 2 + 1);
        }
        tick := tick + jitter;
      }
      var timeWord: Word := chBit * 0x8000_0000 + tick % COUNTER_RANGE;
      var traceWords: seq<Word> := [];
      if Tracing(opt) {
        traceWords := TraceWords();
      }
      var dataWord, f0 := DataWord();
      t := tick;
      f := f0.(ts := tick % COUNTER_RANGE, above := chBit, trace := PulseTrace(opt));
      EventWords(opt, f0, f, timeWord, traceWords, dataWord);
      GeneratedBy(opt, e, t, f);
      TickGenerated(opt, n, nEvents, e, jitter, t);
      ws := [timeWord] + traceWords + [dataWord];
    }

    /** Prints the events of one aggregate. */
    method Body(ghost n: nat, nEvents: nat, base: nat, pairStep: nat, ghost fail: bool)
      returns (body: seq<Word>, ghost em: Emission)
      requires base == BaseTick(opt, n) && pairStep == PairStep(opt, nEvents) && 8 <= nEvents <= 31
      modifies `lfsr
      ensures EmissionOk(opt, n, em) && em.fail == fail
      ensures EventsOk(MockKind(opt.pha), PrintedLayout(opt), em.fields)
      ensures body == EncodeEvents(MockKind(opt.pha), PrintedLayout(opt), em.fields)
      ensures |body| == nEvents * (2 + TraceLength(opt) / 2)
      ensures Affordable(opt) ==> |body| < 0xFFFF_FFFA
    {
      hide TickOf, Generated, EncodeEvents, EncodeEvent, EventOk, PairStep, BaseTick, PrintedLayout, EmissionOk, EventsOk;
      body := [];
      em := Emission(fail, [], []);
      ghost var k, l := MockKind(opt.pha), PrintedLayout(opt);
      NoEventsEncoded(k, l);
      var e := 0;
      while e < nEvents
        invariant 0 <= e <= nEvents && em.fail == fail
        invariant EventsOk(k, l, em.fields) && body == EncodeEvents(k, l, em.fields)
        invariant EventsGenerated(opt, n, nEvents, em, e)
      {
        var ws;
        ghost var f, t;
        ws, f, t := EventOfPair(n, nEvents, e, base, pairStep);
        EncodeEventsAppend(k, l, em.fields, f);
        body := body + ws;
        em := em.(fields := em.fields + [f], ticks := em.ticks + [t]);
        e := e + 1;
      }
      AllGenerated(opt, n, nEvents, em);
      EncodedLength(opt, n, em);
    }

    /** One read: nothing while stopped or not yet due, else one whole aggregate for the period just past.
        The ghost result names the events it carries and their true ticks. */
    method Read(now: int) returns (data: seq<Word>, ghost em: Emission)
      requires Valid() && Affordable(opt)
      modifies `lfsr, `counter, `nextEmit
      ensures Valid()
      ensures !running || now < old(nextEmit) ==> data == [] && counter == old(counter) && nextEmit == old(nextEmit)
      ensures running && now >= old(nextEmit) ==> nextEmit == old(nextEmit) + Period(opt)
      ensures running && now >= old(nextEmit) ==>
                && counter == old(counter) + 1
                && EmissionOk(opt, old(counter), em)
                && (opt.failEvery == 0 ==> !em.fail) && (opt.failEvery == 1 ==> em.fail)
                && |EncodedEvents(opt, old(counter), em)| < 0xFFFF_FFFA
                && data == Printed(opt, old(counter), em)
    {
      hide TickOf, Generated, EncodeEvents, EncodeEvent, EventOk, PairStep, BaseTick, PrintedLayout, EmissionOk, Printed,
           EncodedEvents, FormatWord, EventsOk,
           TraceLength, Tracing, PulseTrace, RegId, Period, NextState, Drawn;
      em := Emission(false, [], []);
      if !running || now < nextEmit {
        return [], em;
      }
      ghost var n := counter;
      var period := Period(opt);
      nextEmit := nextEmit + period;
      var evtSize := 2 + TraceLength(opt) / 2;
      var draw := NextRand();
      var nEvents := 8 + draw % 24;
      var fail := false;
      if opt.failEvery > 0 {
        draw := NextRand();
        fail := draw % opt.failEvery == 0;
      }
      OnePeriodOn(started, n, period, nextEmit);
      var elapsed := nextEmit - started;
      var nowTicks := elapsed / TICK_NS;
      var spanTicks := period / TICK_NS;
      var pairs := (nEvents + 1) / 2;
      var pairStep := if spanTicks / pairs > 0 then spanTicks / pairs else 1;
      var base := if nowTicks > spanTicks then nowTicks - spanTicks else 0;
      GeneratorClock(opt, n, nEvents, elapsed);
      var body;
      body, em := Body(n, nEvents, base, pairStep, fail);
      PrintedIs(opt, n, em, body);
      var coupleSize := 2 + nEvents * evtSize;
      data := [0xA000_0000 + (4 + coupleSize) % 0x1000_0000, 0x800_0000 * RegId(opt) + 0x400_0000 * (if fail then 1 else 0) + 1,
               counter % 0x80_0000, counter % 0x1_0000_0000, coupleSize, FormatWord(opt)] + body;
      counter := counter + 1;
      NextPeriod(started, n, period);
    }
  }

  /** The first `e` events of an emission under way. */
  ghost predicate EventsGenerated(opt: Options, n: nat, nEvents: nat, em: Emission, e: nat) {
    && |em.fields| == |em.ticks| == e
    && forall i :: 0 <= i < e ==> TickOf(opt, n, nEvents, i, em.ticks[i]) && Generated(opt, i, em.ticks[i], em.fields[i])
  }

  lemma AllGenerated(opt: Options, n: nat, nEvents: nat, em: Emission)
    requires 8 <= nEvents <= 31 && EventsGenerated(opt, n, nEvents, em, nEvents)
    ensures EmissionOk(opt, n, em) && |em.fields| == nEvents
  {
    hide TickOf, Generated;
  }

  lemma NoEventsEncoded(k: FrameKind, l: DataLayout)
    ensures EventsOk(k, l, []) && EncodeEvents(k, l, []) == []
  {
  }

  lemma OnePeriodOn(started: int, n: nat, period: nat, nextEmit: int)
    requires nextEmit == started + n * period + period
    ensures nextEmit - started == (n + 1) * period
  {
  }

  lemma NextPeriod(started: int, n: nat, period: nat)
    ensures started + n * period + period == started + (n + 1) * period
  {
  }

  lemma PrintedIs(opt: Options, n: nat, em: Emission, body: seq<Word>)
    requires EmissionOk(opt, n, em) && EventsOk(MockKind(opt.pha), PrintedLayout(opt), em.fields)
    requires body == EncodeEvents(MockKind(opt.pha), PrintedLayout(opt), em.fields) && |body| < 0xFFFF_FFFA
    ensures body == EncodedEvents(opt, n, em)
    ensures Printed(opt, n, em) ==
            [0xA000_0000 + (6 + |body|) % 0x1000_0000, 0x800_0000 * RegId(opt) + 0x400_0000 * BitOf(em.fail) + 1,
             n % 0x80_0000, n % 0x1_0000_0000, 2 + |body|, FormatWord(opt)] + body
  {
    hide EncodeEvents, EmissionOk, FormatWord, PrintedLayout;
  }

  lemma EventWords(opt: Options, f0: Fields, f: Fields, timeWord: Word, traceWords: seq<Word>, dataWord: Word)
    requires f == f0.(ts := f.ts, above := f.above, trace := PulseTrace(opt)) && f.ts < COUNTER_RANGE && f.above < 2
    requires timeWord == f.above * 0x8000_0000 + f.ts
    requires traceWords == if Tracing(opt) then EncodeTrace(MockKind(opt.pha), PulseTrace(opt)) else []
    requires DataOk(MockKind(opt.pha), f0) && dataWord == EncodeData(MockKind(opt.pha), f0)
    ensures EventOk(MockKind(opt.pha), PrintedLayout(opt), f)
    ensures EncodeEvent(MockKind(opt.pha), PrintedLayout(opt), f) == [timeWord] + traceWords + [dataWord]
  {
    hide EncodeTraceWord;
  }

  lemma GeneratorClock(opt: Options, n: nat, nEvents: nat, elapsed: nat)
    requires elapsed == (n + 1) * Period(opt) && nEvents > 0
    ensures BaseTick(opt, n) ==
            if elapsed / TICK_NS > Period(opt) / TICK_NS then elapsed / TICK_NS - Period(opt) / TICK_NS else 0
    ensures var span, pairs := Period(opt) / TICK_NS, (nEvents + 1) / 2;
            PairStep(opt, nEvents) == if span / pairs > 0 then span / pairs else 1
  {
  }

  lemma TickGenerated(opt: Options, n: nat, nEvents: nat, e: nat, jitter: nat, t: nat)
    requires t == BaseTick(opt, n) + (e / 2) * PairStep(opt, nEvents) + jitter
    requires if e % 2 == 0 then jitter == 0 else jitter == 10 || 1 <= jitter <= 1 + PairStep(opt, nEvents) / 2
    ensures TickOf(opt, n, nEvents, e, t)
  {
    hide BaseTick, PairStep;
  }

  lemma GeneratedBy(opt: Options, e: nat, t: nat, f: Fields)
    requires f.ts == t % COUNTER_RANGE && f.above == e % 2 && f.trace == PulseTrace(opt)
    requires f.spareData == 0 && InPeak(opt.pha, f)
    ensures Generated(opt, e, t, f)
  {
    hide PulseTrace;
  }
}
