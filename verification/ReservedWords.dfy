/** The bits that a working x724 board never sets, field by field: which encoded events keep clear of them. */
module ReservedWords {
  import opened Words
  import opened Arithmetic
  import opened DataFrames
  import opened Parsing
  import opened Encoding

  /** The DPP-PHA boards whose words are checked. */
  predicate Guarded(k: FrameKind) { k.pha && k.model.x724 }

  lemma GuardedIsChecked(k: FrameKind, l: DataLayout)
    requires FamilyLayout(k, l)
    ensures Checked(k, l) <==> Guarded(k)
  {
  }

  /** A trace word at the end of an event: samples below 4096 whose bits 8 and 9 are clear in the upper
      half, and no probe above it. */
  predicate KeepsClear(t: TraceWord) {
    t.high < 0x1000 && t.high / 0x100 % 4 == 0 && t.highProbes == 0
  }

  /** A time word at the end of an event. */
  predicate TimeKeepsClear(f: Fields) {
    f.ts < 0x1000_0000 && f.ts / 0x100_0000 % 4 == 0 && f.above == 0
  }

  predicate HasSamples(l: DataLayout) { l.hasTrace && l.numSamples >= 2 }

  /** The first word is the time word, or the first of the trace, or the energy word. */
  predicate FirstWordClear(l: DataLayout, f: Fields) {
    l.hasTS || !HasSamples(l) || (f.trace != [] && f.trace[0].highProbes < 2)
  }

  /** The last word is the energy word, or the last of the trace, or the time word. */
  predicate LastWordClear(l: DataLayout, f: Fields) {
    || l.hasEnergy
    || (if HasSamples(l) then f.trace != [] && KeepsClear(f.trace[|f.trace| - 1]) else TimeKeepsClear(f))
  }

  predicate KeepsReserved(l: DataLayout, f: Fields) { FirstWordClear(l, f) && LastWordClear(l, f) }

  lemma TwoRanges(w: nat, mask: seq<BitRange>)
    requires |mask| == 2
    ensures AnyBit(w, mask) <==> ExtractBits(w, mask[0]) != 0 || ExtractBits(w, mask[1]) != 0
  {
    hide ExtractBits;
    if ExtractBits(w, mask[0]) != 0 {
      assert AnyBit(w, mask);
    }
    if ExtractBits(w, mask[1]) != 0 {
      assert AnyBit(w, mask);
    }
  }

  /** The masks as the three ranges they consist of. */
  lemma Masks(k: FrameKind, l: DataLayout, w: nat)
    requires FamilyLayout(k, l) && Guarded(k)
    ensures AnyBit(w, l.resTS) <==> ExtractBits(w, BITS_31_31) != 0
    ensures AnyBit(w, l.resEnergy) <==> ExtractBits(w, BITS_28_31) != 0 || ExtractBits(w, BITS_24_25) != 0
  {
    hide ExtractBits, LayoutConsistent;
    assert l.resTS[0] == BITS_31_31 && l.resEnergy[0] == BITS_28_31 && l.resEnergy[1] == BITS_24_25;
    TwoRanges(w, l.resEnergy);
    assert AnyBit(w, l.resTS) <==> ExtractBits(w, l.resTS[0]) != 0;
  }

  /** A word by its reserved parts: bits 24 and 25, bits 28 to 30, bit 31. */
  lemma ReservedParts(w: nat, low: nat, two: nat, middle: nat, three: nat, top: nat)
    requires low < 0x100_0000 && two < 4 && middle < 4 && three < 8 && top < 2
    requires w == low + 0x100_0000 * two + 0x400_0000 * middle + 0x1000_0000 * three + 0x8000_0000 * top
    ensures ExtractBits(w, BITS_31_31) == top
    ensures ExtractBits(w, BITS_28_31) == three + 8 * top
    ensures ExtractBits(w, BITS_24_25) == two
  {
    hide ExtractBits, Pow2;
    PowerTable();
    FieldRead(w, BITS_31_31, 0x8000_0000, 2, low + 0x100_0000 * two + 0x400_0000 * middle + 0x1000_0000 * three, top, 0);
    FieldRead(w, BITS_28_31, 0x1000_0000, 0x10, low + 0x100_0000 * two + 0x400_0000 * middle, three + 8 * top, 0);
    FieldRead(w, BITS_24_25, 0x100_0000, 4, low, two, middle + 4 * (three + 8 * top));
  }

  /** Bits 8 and 9 of a sample, the two above, and the highest two. */
  lemma SampleDigits(h: nat) returns (a: nat, b: nat, c: nat, d: nat)
    requires h < 0x4000
    ensures a < 0x100 && b < 4 && c < 4 && d < 4 && h == a + 0x100 * b + 0x400 * c + 0x1000 * d
    ensures (h < 0x1000 <==> d == 0) && b == h / 0x100 % 4
  {
    var p, q := h / 0x100, h / 0x400;
    a, b, c, d := h % 0x100, p % 4, q % 4, q / 4;
    assert p / 4 == q;
    assert h == 0x100 * p + a && p == 4 * q + b && q == 4 * d + c;
  }

  /** Bits 24 and 25 of a time stamp, the two above, and the highest two. */
  lemma TimeDigits(t: nat) returns (a: nat, b: nat, c: nat, d: nat)
    requires t < 0x4000_0000
    ensures a < 0x100_0000 && b < 4 && c < 4 && d < 4 && t == a + 0x100_0000 * b + 0x400_0000 * c + 0x1000_0000 * d
    ensures (t < 0x1000_0000 <==> d == 0) && b == t / 0x100_0000 % 4
  {
    var p, q := t / 0x100_0000, t / 0x400_0000;
    a, b, c, d := t % 0x100_0000, p % 4, q % 4, q / 4;
    assert p / 4 == q;
    assert t == 0x100_0000 * p + a && p == 4 * q + b && q == 4 * d + c;
  }

  lemma ProbeBits(p: nat) returns (low: nat, high: nat)
    requires p < 4
    ensures p == low + 2 * high && low < 2 && high < 2
  {
    low, high := p % 2, p / 2;
  }

  lemma TraceWordReserved(k: FrameKind, l: DataLayout, t: TraceWord)
    requires FamilyLayout(k, l) && OneFamily(k) && Guarded(k) && TraceWordOk(k, t)
    ensures AnyBit(EncodeTraceWord(k, t), l.resTS) <==> t.highProbes >= 2
    ensures AnyBit(EncodeTraceWord(k, t), l.resEnergy) <==> !KeepsClear(t)
  {
    hide ExtractBits, FamilyLayout, AnyBit, KeepsClear;
    var w := EncodeTraceWord(k, t);
    var a, b, c, d := SampleDigits(t.high);
    var low, high := ProbeBits(t.highProbes);
    Masks(k, l, w);
    ReservedParts(w, t.low + 0x4000 * t.lowProbes + 0x1_0000 * a, b, c, d + 4 * low, high);
    ClearDigits(t, b, d);
  }

  lemma ClearDigits(t: TraceWord, b: nat, d: nat)
    requires b == t.high / 0x100 % 4 && (t.high < 0x1000 <==> d == 0)
    ensures KeepsClear(t) <==> b == 0 && d == 0 && t.highProbes == 0
  {
  }

  lemma TimeWordReserved(k: FrameKind, l: DataLayout, f: Fields)
    requires FamilyLayout(k, l) && OneFamily(k) && Guarded(k) && TimeOk(k, f)
    ensures !AnyBit(EncodeTime(k, f), l.resTS)
    ensures AnyBit(EncodeTime(k, f), l.resEnergy) <==> !TimeKeepsClear(f)
  {
    hide ExtractBits, FamilyLayout, AnyBit, TimeKeepsClear;
    var w := EncodeTime(k, f);
    var a, b, c, d := TimeDigits(f.ts);
    Masks(k, l, w);
    ReservedParts(w, a, b, c, d + 4 * f.above, 0);
    ClearTime(f, b, d);
  }

  lemma ClearTime(f: Fields, b: nat, d: nat)
    requires b == f.ts / 0x100_0000 % 4 && (f.ts < 0x1000_0000 <==> d == 0)
    ensures TimeKeepsClear(f) <==> b == 0 && d == 0 && f.above == 0
  {
  }

  lemma DataWordReserved(k: FrameKind, l: DataLayout, f: Fields)
    requires FamilyLayout(k, l) && OneFamily(k) && Guarded(k) && DataOk(k, f)
    ensures !AnyBit(EncodeData(k, f), l.resTS) && !AnyBit(EncodeData(k, f), l.resEnergy)
  {
    hide ExtractBits, FamilyLayout, AnyBit;
    var w := EncodeData(k, f);
    Masks(k, l, w);
    ReservedParts(w, f.charge + 0x8000 * BitOf(f.pileup) + 0x1_0000 * f.upper, 0, f.spareData, 0, 0);
  }

  /** Where the two checked words of an event come from. */
  lemma CheckedWords(k: FrameKind, l: DataLayout, f: Fields)
    requires FamilyLayout(k, l) && OneFamily(k) && Guarded(k) && EventOk(k, l, f) && l.evtSize > 0
    ensures var ev := EncodeEvent(k, l, f);
            && |ev| == l.evtSize
            && (HasSamples(l) ==> f.trace != [])
            && (!l.hasTS && !HasSamples(l) ==> LastWords(l) > 0)
            && (LastWords(l) > 0 <==> l.hasEnergy)
            && ev[0] == (if l.hasTS then EncodeTime(k, f) else if HasSamples(l) then EncodeTraceWord(k, f.trace[0]) else EncodeData(k, f))
            && (!l.hasEnergy && !HasSamples(l) ==> l.hasTS)
            && ev[l.evtSize - 1] == (if l.hasEnergy then EncodeData(k, f)
                                     else if HasSamples(l) then EncodeTraceWord(k, f.trace[|f.trace| - 1]) else EncodeTime(k, f))
  {
    hide EncodeTime, EncodeData, EncodeTraceWord, EncodeEvent;
    EventParts(k, l, f);
    var ev := EncodeEvent(k, l, f);
    var first, n := if l.hasTS then 1 else 0, l.numSamples / 2;
    if HasSamples(l) {
      assert ev[first..first + n][0] == ev[first] && ev[first..first + n][n - 1] == ev[first + n - 1];
    }
  }

  /** An encoded event passes the check of its first word, and of its last, exactly when its fields keep
      clear of the reserved bits; for every layout, also without time stamp, energy or trace. */
  lemma EventReserved(k: FrameKind, l: DataLayout, f: Fields)
    requires FamilyLayout(k, l) && OneFamily(k) && Guarded(k) && EventOk(k, l, f) && l.evtSize > 0
    ensures var ev := EncodeEvent(k, l, f);
            && |ev| == l.evtSize
            && (AnyBit(ev[0], l.resTS) <==> !FirstWordClear(l, f))
            && (AnyBit(ev[l.evtSize - 1], l.resEnergy) <==> !LastWordClear(l, f))
  {
    hide AnyBit, EncodeTime, EncodeData, EncodeTraceWord, EncodeEvent, FamilyLayout, TimeOk, DataOk, TraceWordOk, KeepsClear,
         TimeKeepsClear, LastWords;
    CheckedWords(k, l, f);
    if HasSamples(l) {
      assert TraceWordOk(k, f.trace[0]) && TraceWordOk(k, f.trace[|f.trace| - 1]);
      TraceWordReserved(k, l, f.trace[0]);
      TraceWordReserved(k, l, f.trace[|f.trace| - 1]);
    }
    if l.hasTS {
      TimeWordReserved(k, l, f);
    }
    if LastWords(l) > 0 {
      DataWordReserved(k, l, f);
    }
  }
}
