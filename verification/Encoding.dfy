/** The data format written down from the field side: events, couples and aggregates as the boards
    lay them out, and the proof that decoding recovers every field of a stream of them. */
module Encoding {
  import opened Words
  import opened Arithmetic
  import opened DataFrames
  import opened Parsing
  import opened Decoder
  import opened DecodingLaws

  // ----- one event -----

  /** Two samples and the digital probes above each. */
  datatype TraceWord = TraceWord(low: nat, lowProbes: nat, high: nat, highProbes: nat)

  /** The fields of an event. `above` are the bits above the time stamp: the channel bit, or the
      roll-over flag. The `spare` fields are bits the decoder never reads. */
  datatype Fields = Fields(
    ts: nat, above: nat,
    trace: seq<TraceWord>,
    extended: nat, fine: nat, psdLost: bool, psdOver: bool, spareLow: nat, spare13: nat, spareHigh: nat,
    charge: nat, pileup: bool, upper: nat, spareData: nat)

  predicate Wide(k: FrameKind) { k.model.x730 || k.pha }

  predicate X724(k: FrameKind) { k.pha && !k.model.x730 }

  predicate TraceWordOk(k: FrameKind, t: TraceWord) {
    if Wide(k) then t.low < 0x4000 && t.lowProbes < 4 && t.high < 0x4000 && t.highProbes < 4
    else t.low < 0x1000 && t.lowProbes < 16 && t.high < 0x1000 && t.highProbes < 16
  }

  function EncodeTraceWord(k: FrameKind, t: TraceWord): Word
    requires TraceWordOk(k, t)
  {
    if Wide(k) then t.low + 0x4000 * t.lowProbes + 0x1_0000 * t.high + 0x4000_0000 * t.highProbes
    else t.low + 0x1000 * t.lowProbes + 0x1_0000 * t.high + 0x1000_0000 * t.highProbes
  }

  /** Time stamps of 31, 30 or 32 bits; the top bit of the 30-bit word is always 0. */
  predicate TimeOk(k: FrameKind, f: Fields) {
    if k.model.x730 then f.ts < 0x8000_0000 && f.above < 2
    else if k.pha then f.ts < 0x4000_0000 && f.above < 2
    else f.ts < 0x1_0000_0000 && f.above == 0
  }

  function EncodeTime(k: FrameKind, f: Fields): Word
    requires TimeOk(k, f)
  {
    if k.model.x730 then f.ts + 0x8000_0000 * f.above
    else if k.pha then f.ts + 0x4000_0000 * f.above
    else f.ts
  }

  function BitOf(b: bool): nat { if b then 1 else 0 }

  /** Which parts the extras word has depends on the mode. */
  predicate ExtrasOk(l: DataLayout, f: Fields) {
    if !l.extrasConfig then f.extended < 0x8000 && f.spareHigh < 0x2_0000
    else
      && f.extended < 0x1_0000
      && (if l.extrasMode == 2 then f.fine < 0x400 && f.spareLow < 0x40
          else f.spareLow < 0x1000 && f.spare13 < 2 && f.spareHigh < 2)
  }

  function EncodeExtras(l: DataLayout, f: Fields): Word
    requires ExtrasOk(l, f)
  {
    if !l.extrasConfig then f.extended + 0x8000 * f.spareHigh
    else if l.extrasMode == 2 then f.fine + 0x400 * f.spareLow + 0x1_0000 * f.extended
    else f.spareLow + 0x1000 * BitOf(f.psdLost) + 0x2000 * f.spare13 + 0x4000 * BitOf(f.psdOver)
         + 0x8000 * f.spareHigh + 0x1_0000 * f.extended
  }

  /** PHA: energy, pile-up, flags (5 or 8 bits) and spare bits, of which the x724 leaves all but two
      at 0. PSD: short charge, pile-up, long charge. */
  predicate DataOk(k: FrameKind, f: Fields) {
    && f.charge < 0x8000
    && (if !k.pha then f.upper < 0x1_0000
        else if k.model.x730 then f.upper < 0x20 && f.spareData < 0x800
        else f.upper < 0x100 && f.spareData < 4)
  }

  function EncodeData(k: FrameKind, f: Fields): Word
    requires DataOk(k, f)
  {
    f.charge + 0x8000 * BitOf(f.pileup) + 0x1_0000 * f.upper
    + (if !k.pha then 0 else if k.model.x730 then 0x20_0000 * f.spareData else 0x400_0000 * f.spareData)
  }

  /** One family per board name, as every real one has. */
  predicate OneFamily(k: FrameKind) {
    Supported(k) && !(k.model.x730 && k.model.x724) && !(k.model.x730 && k.model.x720)
  }

  predicate EventOk(k: FrameKind, l: DataLayout, f: Fields) {
    && (l.hasTS ==> TimeOk(k, f))
    && (l.hasTrace ==> |f.trace| == l.numSamples / 2)
    && (forall i :: 0 <= i < |f.trace| ==> TraceWordOk(k, f.trace[i]))
    && (l.hasExtras ==> ExtrasOk(l, f))
    && (LastWords(l) > 0 ==> DataOk(k, f))
  }

  function EncodeTrace(k: FrameKind, ts: seq<TraceWord>): (ws: seq<Word>)
    requires forall i :: 0 <= i < |ts| ==> TraceWordOk(k, ts[i])
    ensures |ws| == |ts|
  {
    seq(|ts|, i requires 0 <= i < |ts| => EncodeTraceWord(k, ts[i]))
  }

  function EncodeEvent(k: FrameKind, l: DataLayout, f: Fields): seq<Word>
    requires EventOk(k, l, f)
  {
    (if l.hasTS then [EncodeTime(k, f)] else [])
    + (if l.hasTrace then EncodeTrace(k, f.trace) else [])
    + (if l.hasExtras then [EncodeExtras(l, f)] else [])
    + (if LastWords(l) > 0 then [EncodeData(k, f)] else [])
  }

  // ----- what an event means -----

  function SamplesOf(l: DataLayout, ts: seq<TraceWord>): seq<nat> {
    if l.dualTrace then seq(|ts|, i requires 0 <= i < |ts| => ts[i].low)
    else seq(2 * |ts|, i requires 0 <= i < 2 * |ts| => if i % 2 == 0 then ts[i / 2].low else ts[i / 2].high)
  }

  /** Width of the extension of the time stamp. */
  function ExtensionBits(l: DataLayout): nat {
    if !l.hasExtras then 0 else if !l.extrasConfig then 15 else if l.extrasMode <= 2 then 16 else 0
  }

  /** The event that the fields describe. A part the layout leaves out reads as zero. */
  function EventOf(k: FrameKind, l: DataLayout, board: nat, couple: nat, f: Fields): RawEvent {
    var data := LastWords(l) > 0;
    var mode1 := !k.pha && l.hasExtras && l.extrasConfig && l.extrasMode == 1;
    var mode2 := l.hasExtras && l.extrasConfig && l.extrasMode == 2;
    RawEvent(
      board,
      if k.model.x730 then 2 * couple + (if l.hasTS then f.above else 0) else couple,
      (if l.hasTS then f.ts else 0) + (if ExtensionBits(l) > 0 then f.extended * Pow2(l.tsBits) else 0),
      l.hasTS,
      l.tsBits + ExtensionBits(l),
      if mode2 then f.fine else 0,
      if mode2 then 10 else 0,
      if k.pha && data then f.charge else 0,
      if !k.pha && data then f.charge else 0,
      if !k.pha && data then f.upper else 0,
      data && f.pileup,
      if k.pha then data && f.upper / 0x20 % 2 == 1 else mode1 && f.psdLost,
      if k.pha then data && (f.upper / 0x10 % 2 == 1 || f.upper / 0x80 % 2 == 1) else mode1 && f.psdOver,
      if l.hasTrace then SamplesOf(l, f.trace) else [])
  }

  /** What a layout of a supported family always is. */
  predicate FamilyLayout(k: FrameKind, l: DataLayout) {
    && LayoutConsistent(k, l)
    && l.fmtTS == (if k.model.x730 then BITS_0_30 else if k.pha then BITS_0_29 else BITS_0_31)
    && l.tsBits == (if k.model.x730 then 31 else if k.pha then 30 else 32)
    && l.fmtExtras == (if !k.pha then BITS_0_31 else if k.model.x730 then BITS_16_20 else BITS_16_23)
    && l.fmtSample == (if Wide(k) then BITS_0_13 else BITS_0_11)
    && l.hasChannelBit == k.model.x730 && l.extrasConfig == k.model.x730
    && (k.pha && l.hasExtras ==> k.model.x730)
    && l.resTS == (if k.pha && k.model.x724 then [BITS_31_31] else [])
    && l.resEnergy == (if k.pha && k.model.x724 then [BITS_28_31, BITS_24_25] else [])
  }

  lemma ResolvedLayout(k: FrameKind, form: Word)
    requires Supported(k)
    ensures FamilyLayout(k, Resolve(k, form))
  {
    hide Bit, ExtractBits, NumSamples;
    ResolveConsistent(k, form);
  }

  // ----- recovering the fields -----

  lemma TraceWordRead(k: FrameKind, l: DataLayout, t: TraceWord)
    requires FamilyLayout(k, l) && TraceWordOk(k, t)
    ensures var w := EncodeTraceWord(k, t);
            ExtractBits(w, l.fmtSample) == t.low && ExtractBits(w, HighHalf(l.fmtSample)) == t.high
  {
    hide ExtractBits, LayoutConsistent, Pow2;
    PowerTable();
    var w := EncodeTraceWord(k, t);
    if Wide(k) {
      FieldRead(w, BITS_0_13, 1, 0x4000, 0, t.low, t.lowProbes + 4 * (t.high + 0x4000 * t.highProbes));
      FieldRead(w, HighHalf(BITS_0_13), 0x1_0000, 0x4000, t.low + 0x4000 * t.lowProbes, t.high, t.highProbes);
    } else {
      FieldRead(w, BITS_0_11, 1, 0x1000, 0, t.low, t.lowProbes + 16 * (t.high + 0x1000 * t.highProbes));
      FieldRead(w, HighHalf(BITS_0_11), 0x1_0000, 0x1000, t.low + 0x1000 * t.lowProbes, t.high, t.highProbes);
    }
  }

  lemma TraceRead(k: FrameKind, l: DataLayout, ts: seq<TraceWord>)
    requires FamilyLayout(k, l) && forall i :: 0 <= i < |ts| ==> TraceWordOk(k, ts[i])
    ensures Samples(l, EncodeTrace(k, ts)) == SamplesOf(l, ts)
  {
    hide ExtractBits, FamilyLayout, TraceWordOk, EncodeTraceWord, HighHalf;
    forall i | 0 <= i < |ts|
      ensures ExtractBits(EncodeTraceWord(k, ts[i]), l.fmtSample) == ts[i].low
      ensures ExtractBits(EncodeTraceWord(k, ts[i]), HighHalf(l.fmtSample)) == ts[i].high
    {
      TraceWordRead(k, l, ts[i]);
    }
  }

  lemma TimeRead(k: FrameKind, l: DataLayout, couple: nat, f: Fields)
    requires FamilyLayout(k, l) && TimeOk(k, f)
    ensures var w := EncodeTime(k, f);
            && ExtractBits(w, l.fmtTS) == f.ts
            && ChannelOf(l, couple, w) == if k.model.x730 then 2 * couple + f.above else couple
  {
    hide ExtractBits, LayoutConsistent, Pow2;
    PowerTable();
    var w := EncodeTime(k, f);
    if k.model.x730 {
      FieldRead(w, BITS_0_30, 1, 0x8000_0000, 0, f.ts, f.above);
      FieldRead(w, BITS_31_31, 0x8000_0000, 2, f.ts, f.above, 0);
    } else if k.pha {
      FieldRead(w, BITS_0_29, 1, 0x4000_0000, 0, f.ts, f.above);
    } else {
      FieldRead(w, BITS_0_31, 1, 0x1_0000_0000, 0, f.ts, 0);
    }
  }

  /** The parts of the extras word below and above the bits of interest. */
  lemma ExtrasRead(k: FrameKind, l: DataLayout, f: Fields)
    requires FamilyLayout(k, l) && ExtrasOk(l, f) && l.hasExtras
    ensures var x := if k.pha then ExtrasPHA(l, EncodeExtras(l, f)) else ExtrasPSD(l, EncodeExtras(l, f));
            && x.extendedBits == ExtensionBits(l)
            && (x.extendedBits > 0 ==> x.extendedTS == f.extended)
            && x.fineTS == (if l.extrasConfig && l.extrasMode == 2 then f.fine else 0)
            && x.fineBits == (if l.extrasConfig && l.extrasMode == 2 then 10 else 0)
            && (!k.pha ==> x.lost == (l.extrasConfig && l.extrasMode == 1 && f.psdLost))
            && (!k.pha ==> x.satu == (l.extrasConfig && l.extrasMode == 1 && f.psdOver))
  {
    hide ExtractBits, Bit, LayoutConsistent, Pow2;
    PowerTable();
    var w := EncodeExtras(l, f);
    var e := f.extended;
    if !l.extrasConfig {
      FieldRead(w, BITS_0_14, 1, 0x8000, 0, e, f.spareHigh);
    } else if l.extrasMode == 2 {
      FieldRead(w, BITS_0_9, 1, 0x400, 0, f.fine, f.spareLow + 0x40 * e);
      FieldRead(w, BITS_16_31, 0x1_0000, 0x1_0000, f.fine + 0x400 * f.spareLow, e, 0);
    } else {
      var lost, over := BitOf(f.psdLost), BitOf(f.psdOver);
      FieldRead(w, BITS_16_31, 0x1_0000, 0x1_0000,
                f.spareLow + 0x1000 * lost + 0x2000 * f.spare13 + 0x4000 * over + 0x8000 * f.spareHigh, e, 0);
      FlagRead(w, BIT_12, 0x1000, f.spareLow, lost, f.spare13 + 2 * (over + 2 * (f.spareHigh + 2 * e)));
      FlagRead(w, BIT_14, 0x4000, f.spareLow + 0x1000 * lost + 0x2000 * f.spare13, over, f.spareHigh + 2 * e);
    }
  }

  lemma DataRead(k: FrameKind, l: DataLayout, f: Fields)
    requires FamilyLayout(k, l) && DataOk(k, f)
    ensures var w := EncodeData(k, f);
            && ExtractBits(w, BITS_0_14) == f.charge
            && Bit(w, BIT_15) == f.pileup
            && (!k.pha ==> ExtractBits(w, BITS_16_31) == f.upper)
            && (k.pha ==> ExtractBits(w, l.fmtExtras) == f.upper)
  {
    hide ExtractBits, Bit, LayoutConsistent, Pow2;
    PowerTable();
    var w := EncodeData(k, f);
    var pile := BitOf(f.pileup);
    var top := f.upper + (if !k.pha then 0 else if k.model.x730 then 0x20 * f.spareData else 0x400 * f.spareData);
    FieldRead(w, BITS_0_14, 1, 0x8000, 0, f.charge, pile + 2 * top);
    FlagRead(w, BIT_15, 0x8000, f.charge, pile, top);
    var low := f.charge + 0x8000 * pile;
    if !k.pha {
      FieldRead(w, BITS_16_31, 0x1_0000, 0x1_0000, low, f.upper, 0);
    } else if k.model.x730 {
      FieldRead(w, BITS_16_20, 0x1_0000, 0x20, low, f.upper, f.spareData);
    } else {
      FieldRead(w, BITS_16_23, 0x1_0000, 0x100, low, f.upper, 4 * f.spareData);
    }
  }

  /** Where the pieces of a sequence are, the last two given by their length from the end. */
  lemma FourPieces(a: seq<Word>, b: seq<Word>, c: seq<Word>, d: seq<Word>)
    ensures var ev := a + b + c + d;
            && |ev| == |a| + |b| + |c| + |d|
            && (a != [] ==> ev[0] == a[0])
            && ev[|a|..|a| + |b|] == b
            && (|c| == 1 ==> ev[|ev| - 1 - |d|] == c[0])
            && (|d| == 1 ==> ev[|ev| - 1] == d[0])
  {
  }

  /** The parts of an event lie where the layout puts them. */
  lemma EventParts(k: FrameKind, l: DataLayout, f: Fields)
    requires FamilyLayout(k, l) && EventOk(k, l, f)
    ensures var ev := EncodeEvent(k, l, f);
            && |ev| == l.evtSize
            && (l.hasTS ==> ev != [] && ev[0] == EncodeTime(k, f))
            && (LastWords(l) > 0 ==> ev != [] && ev[|ev| - 1] == EncodeData(k, f))
            && (l.hasExtras ==> |ev| >= 1 + LastWords(l) && ev[|ev| - 1 - LastWords(l)] == EncodeExtras(l, f))
            && (l.hasTrace ==>
                  var first := if l.hasTS then 1 else 0;
                  first + l.numSamples / 2 <= |ev| && ev[first..first + l.numSamples / 2] == EncodeTrace(k, f.trace))
  {
    hide EncodeTrace, EncodeTime, EncodeExtras, EncodeData, TimeOk, ExtrasOk, DataOk, TraceWordOk, Wide, Supported;
    var a: seq<Word> := if l.hasTS then [EncodeTime(k, f)] else [];
    var b := if l.hasTrace then EncodeTrace(k, f.trace) else [];
    var c: seq<Word> := if l.hasExtras then [EncodeExtras(l, f)] else [];
    var d: seq<Word> := if LastWords(l) > 0 then [EncodeData(k, f)] else [];
    FourPieces(a, b, c, d);
    assert a + b + c + d == EncodeEvent(k, l, f);
  }

  /** What is read of the time word; one that the layout leaves out reads as zero. */
  lemma TimePart(k: FrameKind, l: DataLayout, couple: nat, f: Fields, w: Word)
    requires FamilyLayout(k, l) && (l.hasTS ==> TimeOk(k, f) && w == EncodeTime(k, f)) && (!l.hasTS ==> w == 0)
    ensures ExtractBits(w, l.fmtTS) == if l.hasTS then f.ts else 0
    ensures ChannelOf(l, couple, w) == if k.model.x730 then 2 * couple + (if l.hasTS then f.above else 0) else couple
  {
    hide ExtractBits, EncodeTime, TimeOk, LayoutConsistent;
    if l.hasTS {
      TimeRead(k, l, couple, f);
    } else {
      ZeroWord(l.fmtTS);
      ZeroWord(BITS_31_31);
    }
  }

  /** What is read of the data word, likewise. */
  lemma DataPart(k: FrameKind, l: DataLayout, f: Fields, w: Word)
    requires FamilyLayout(k, l)
    requires (LastWords(l) > 0 ==> DataOk(k, f) && w == EncodeData(k, f)) && (LastWords(l) == 0 ==> w == 0)
    ensures var data := LastWords(l) > 0;
            && ExtractBits(w, BITS_0_14) == (if data then f.charge else 0)
            && Bit(w, BIT_15) == (data && f.pileup)
            && (!k.pha ==> ExtractBits(w, BITS_16_31) == if data then f.upper else 0)
            && (k.pha ==>
                  var flags := ExtractBits(w, l.fmtExtras);
                  && Bit(flags, BIT_5) == (data && f.upper / 0x20 % 2 == 1)
                  && (Bit(flags, BIT_4) || Bit(flags, BIT_7)) == (data && (f.upper / 0x10 % 2 == 1 || f.upper / 0x80 % 2 == 1)))
  {
    hide ExtractBits, Bit, EncodeData, DataOk, FamilyLayout;
    if LastWords(l) > 0 {
      DataRead(k, l, f);
      BitTable(f.upper);
    } else {
      NoData(l);
    }
  }

  /** Decoding an event recovers every field the layout has. */
  lemma EventRead(k: FrameKind, l: DataLayout, board: nat, couple: nat, f: Fields)
    requires FamilyLayout(k, l) && EventOk(k, l, f)
    ensures |EncodeEvent(k, l, f)| == l.evtSize
    ensures ParseEvent(k, l, board, couple, EncodeEvent(k, l, f)) == EventOf(k, l, board, couple, f)
  {
    hide ExtractBits, Bit, SamplesOf, EncodeTime, EncodeExtras, EncodeData, EncodeEvent, Shl, Pow2,
         TimeOk, DataOk, ExtrasOk, TraceWordOk, ChannelOf, ExtrasPHA, ExtrasPSD, ExtensionBits,
         TimeWord, LastWord, ExtrasOf, TraceOf, Extended;
    PartsRead(k, l, f);
    var ev := EncodeEvent(k, l, f);
    var x := ExtrasOf(k, l, ev);
    TimePart(k, l, couple, f, TimeWord(l, ev));
    DataPart(k, l, f, LastWord(l, ev));
    NoExtension(l);
    if l.hasExtras {
      ExtrasRead(k, l, f);
    }
    StampRead(l, f, x, if l.hasTS then f.ts else 0);
  }

  lemma StampRead(l: DataLayout, f: Fields, x: Extras, ts: nat)
    requires x.extendedBits == ExtensionBits(l) && (x.extendedBits > 0 ==> x.extendedTS == f.extended)
    ensures Extended(x, ts, l.tsBits) == ts + if ExtensionBits(l) > 0 then f.extended * Pow2(l.tsBits) else 0
  {
    hide Shl, Pow2, ExtensionBits;
    ShiftsAreProducts(x.extendedTS, l.tsBits);
  }

  /** The parser takes each part from where the encoding put it. */
  lemma PartsRead(k: FrameKind, l: DataLayout, f: Fields)
    requires FamilyLayout(k, l) && EventOk(k, l, f)
    ensures var ev := EncodeEvent(k, l, f);
            && |ev| == l.evtSize && (l.hasTS || LastWords(l) > 0 ==> ev != [])
            && (if l.hasTS then TimeWord(l, ev) == EncodeTime(k, f) else TimeWord(l, ev) == 0)
            && (if LastWords(l) > 0 then LastWord(l, ev) == EncodeData(k, f) else LastWord(l, ev) == 0)
            && (if l.hasExtras
                then ExtrasOf(k, l, ev) == if k.pha then ExtrasPHA(l, EncodeExtras(l, f)) else ExtrasPSD(l, EncodeExtras(l, f))
                else ExtrasOf(k, l, ev) == NO_EXTRAS)
            && TraceOf(k, l, ev) == if l.hasTrace then SamplesOf(l, f.trace) else []
  {
    hide EncodeEvent, EncodeTime, EncodeExtras, EncodeData, EncodeTrace, TimeOk, DataOk, ExtrasOk, TraceWordOk,
         ExtrasPHA, ExtrasPSD, Samples, SamplesOf;
    EventParts(k, l, f);
    if l.hasTrace {
      TraceRead(k, l, f.trace);
    }
  }

  lemma NoExtension(l: DataLayout)
    ensures !l.hasExtras ==> ExtensionBits(l) == 0
  {
  }

  lemma {:induction false} ZeroWord(r: BitRange)
    ensures ExtractBits(0, r) == 0
  {
    ShiftsAreProducts(0, r.lo);
    ShiftsAreProducts(Shr(0, r.lo), RangeWidth(r));
    DivisionUnique(0, Pow2(r.lo), 0, 0);
    DivisionUnique(0, Pow2(RangeWidth(r)), 0, 0);
  }

  /** An absent data word reads as zero everywhere. */
  lemma NoData(l: DataLayout)
    ensures ExtractBits(0, BITS_0_14) == 0 && ExtractBits(0, BITS_16_31) == 0 && !Bit(0, BIT_15)
    ensures var flags := ExtractBits(0, l.fmtExtras); !Bit(flags, BIT_4) && !Bit(flags, BIT_5) && !Bit(flags, BIT_7)
  {
    hide ExtractBits, Bit;
    ZeroWord(BITS_0_14);
    ZeroWord(BITS_16_31);
    ZeroWord(l.fmtExtras);
    BitTable(0);
  }
}
