/** The size and format words of a channel aggregate, written down family by family from the field side,
    and read back by the bit tables. */
module FormatWords {
  import opened Words
  import opened Arithmetic
  import opened DataFrames
  import opened Parsing
  import opened Encoding

  /** What a board announces of its events. `probes` are the bits that only name the probes shown;
      `units` is the trace length in units of the family. */
  datatype Format = Format(units: nat, probes: nat, extrasMode: nat,
                           trace: bool, extras: bool, ts: bool, data: bool, dual: bool)

  predicate FormatOk(k: FrameKind, f: Format) {
    if k.model.x730 then f.units < 0x1_0000 && f.probes < 0x100 && f.extrasMode < 8
    else if k.pha then f.units < 0x1_0000 && f.probes < 0x1000 && f.extrasMode == 0 && !f.extras
    else f.units < 0x1000 && f.probes < 0x8000 && f.extrasMode == 0
  }

  function EncodeFormat(k: FrameKind, f: Format): Word
    requires FormatOk(k, f)
  {
    if k.model.x730 then
      f.units + 0x1_0000 * f.probes + 0x100_0000 * f.extrasMode + 0x800_0000 * BitOf(f.trace) + 0x1000_0000 * BitOf(f.extras)
      + 0x2000_0000 * BitOf(f.ts) + 0x4000_0000 * BitOf(f.data) + 0x8000_0000 * BitOf(f.dual)
    else if k.pha then
      f.units + 0x1_0000 * f.probes + 0x1000_0000 * BitOf(f.ts) + 0x2000_0000 * BitOf(f.data)
      + 0x4000_0000 * BitOf(f.trace) + 0x8000_0000 * BitOf(f.dual)
    else
      f.units + 0x1000 * f.probes + 0x800_0000 * BitOf(f.trace) + 0x1000_0000 * BitOf(f.extras)
      + 0x2000_0000 * BitOf(f.ts) + 0x4000_0000 * BitOf(f.data) + 0x8000_0000 * BitOf(f.dual)
  }

  /** Samples per unit: 8, and 2 for the x724. */
  function SampleCount(k: FrameKind, f: Format): nat {
    f.units * (if X724(k) then 2 else 8) % 0x1_0000
  }

  function EventWordCount(k: FrameKind, f: Format): nat {
    BitOf(f.ts) + BitOf(f.extras) + BitOf(f.data) + (if f.trace then SampleCount(k, f) / 2 else 0)
  }

  /** The layout says what the format announces. */
  predicate Announces(k: FrameKind, f: Format, l: DataLayout) {
    && l.hasTrace == f.trace && l.hasTS == f.ts && l.hasExtras == f.extras && l.dualTrace == f.dual
    && l.hasEnergy == (k.pha && f.data) && l.hasCharge == (!k.pha && f.data)
    && l.numSamples == SampleCount(k, f) && l.extrasMode == f.extrasMode
    && l.evtSize == EventWordCount(k, f)
  }

  /** The three highest flags, common to all families, above `below`. */
  lemma TopFlags(w: Word, below: nat, b28: nat, b29: nat, b30: nat, b31: nat)
    requires below < 0x1000_0000 && b28 < 2 && b29 < 2 && b30 < 2 && b31 < 2
    requires w == below + 0x1000_0000 * (b28 + 2 * (b29 + 2 * (b30 + 2 * b31)))
    ensures Bit(w, BIT_28) <==> b28 == 1
    ensures Bit(w, BIT_29) <==> b29 == 1
    ensures Bit(w, BIT_30) <==> b30 == 1
    ensures Bit(w, BIT_31) <==> b31 == 1
  {
    hide Bit, Pow2;
    PowerTable();
    FlagRead(w, BIT_28, 0x1000_0000, below, b28, b29 + 2 * (b30 + 2 * b31));
    FlagRead(w, BIT_29, 0x2000_0000, below + 0x1000_0000 * b28, b29, b30 + 2 * b31);
    FlagRead(w, BIT_30, 0x4000_0000, below + 0x1000_0000 * b28 + 0x2000_0000 * b29, b30, b31);
    FlagRead(w, BIT_31, 0x8000_0000, below + 0x1000_0000 * b28 + 0x2000_0000 * b29 + 0x4000_0000 * b30, b31, 0);
  }

  /** What the layout takes from the bits of the format word. */
  lemma LayoutBits(k: FrameKind, form: Word)
    requires OneFamily(k) && (k.pha || !k.model.x724)
    ensures var l := Resolve(k, form);
            && l.hasTrace == Bit(form, if X724(k) then BIT_30 else BIT_27)
            && l.hasTS == Bit(form, if X724(k) then BIT_28 else BIT_29)
            && l.hasExtras == (!X724(k) && Bit(form, BIT_28))
            && l.hasEnergy == (k.pha && Bit(form, if X724(k) then BIT_29 else BIT_30))
            && l.hasCharge == (!k.pha && Bit(form, BIT_30))
            && l.dualTrace == Bit(form, BIT_31)
            && l.numSamples == ExtractBits(form, if Wide(k) then BITS_0_15 else BITS_0_11) * (if X724(k) then 2 else 8) % 0x1_0000
            && l.extrasMode == (if k.model.x730 then ExtractBits(form, BITS_24_26) else 0)
            && l.evtSize == BitOf(l.hasTS) + BitOf(l.hasExtras) + BitOf(l.hasEnergy || l.hasCharge)
                            + (if l.hasTrace then l.numSamples / 2 else 0)
  {
    hide Bit, ExtractBits;
  }

  lemma ReadX730(k: FrameKind, f: Format)
    requires OneFamily(k) && k.model.x730 && FormatOk(k, f)
    ensures Announces(k, f, Resolve(k, EncodeFormat(k, f)))
  {
    hide Bit, ExtractBits, Pow2, Resolve;
    PowerTable();
    var w := EncodeFormat(k, f);
    LayoutBits(k, w);
    var top := BitOf(f.extras) + 2 * (BitOf(f.ts) + 2 * (BitOf(f.data) + 2 * BitOf(f.dual)));
    var below := f.units + 0x1_0000 * f.probes + 0x100_0000 * f.extrasMode;
    TopFlags(w, below + 0x800_0000 * BitOf(f.trace), BitOf(f.extras), BitOf(f.ts), BitOf(f.data), BitOf(f.dual));
    FlagRead(w, BIT_27, 0x800_0000, below, BitOf(f.trace), top);
    FieldRead(w, BITS_24_26, 0x100_0000, 8, f.units + 0x1_0000 * f.probes, f.extrasMode, BitOf(f.trace) + 2 * top);
    FieldRead(w, BITS_0_15, 1, 0x1_0000, 0, f.units, f.probes + 0x100 * (f.extrasMode + 8 * (BitOf(f.trace) + 2 * top)));
  }

  lemma ReadX724(k: FrameKind, f: Format)
    requires OneFamily(k) && !k.model.x730 && k.pha && FormatOk(k, f)
    ensures Announces(k, f, Resolve(k, EncodeFormat(k, f)))
  {
    hide Bit, ExtractBits, Pow2, Resolve;
    PowerTable();
    var w := EncodeFormat(k, f);
    LayoutBits(k, w);
    var top := BitOf(f.ts) + 2 * (BitOf(f.data) + 2 * (BitOf(f.trace) + 2 * BitOf(f.dual)));
    TopFlags(w, f.units + 0x1_0000 * f.probes, BitOf(f.ts), BitOf(f.data), BitOf(f.trace), BitOf(f.dual));
    FieldRead(w, BITS_0_15, 1, 0x1_0000, 0, f.units, f.probes + 0x1000 * top);
  }

  lemma ReadX720(k: FrameKind, f: Format)
    requires OneFamily(k) && !k.model.x730 && !k.model.x724 && !k.pha && FormatOk(k, f)
    ensures Announces(k, f, Resolve(k, EncodeFormat(k, f)))
  {
    hide Bit, ExtractBits, Pow2, Resolve;
    PowerTable();
    var w := EncodeFormat(k, f);
    LayoutBits(k, w);
    var top := BitOf(f.extras) + 2 * (BitOf(f.ts) + 2 * (BitOf(f.data) + 2 * BitOf(f.dual)));
    var below := f.units + 0x1000 * f.probes;
    TopFlags(w, below + 0x800_0000 * BitOf(f.trace), BitOf(f.extras), BitOf(f.ts), BitOf(f.data), BitOf(f.dual));
    FlagRead(w, BIT_27, 0x800_0000, below, BitOf(f.trace), top);
    FieldRead(w, BITS_0_11, 1, 0x1000, 0, f.units, f.probes + 0x8000 * (BitOf(f.trace) + 2 * top));
  }

  /** The tables read back what every family's format word announces: parts, probes aside, trace length
      and event size. */
  lemma FormatIsRead(k: FrameKind, f: Format)
    requires OneFamily(k) && FormatOk(k, f) && (k.pha || !k.model.x724)
    ensures Announces(k, f, Resolve(k, EncodeFormat(k, f)))
  {
    hide Resolve, Announces, EncodeFormat;
    if k.model.x730 {
      ReadX730(k, f);
    } else if k.pha {
      ReadX724(k, f);
    } else {
      ReadX720(k, f);
    }
  }

  /** Values of the size field of a family. */
  function SizeLimit(k: FrameKind): nat {
    if k.model.x730 then (if k.pha then 0x8000_0000 else 0x40_0000)
    else if k.pha then 0x20_0000 else 0x100_0000
  }

  /** The size of a channel aggregate is read from its low bits, whatever the bits above. */
  lemma SizeIsRead(k: FrameKind, size: nat, spare: nat)
    requires OneFamily(k) && size < SizeLimit(k) && size + SizeLimit(k) * spare < TWO32
    ensures ExtractBits(size + SizeLimit(k) * spare, SizeFormat(k)) == size
  {
    hide ExtractBits, Pow2;
    PowerTable();
    FieldRead(size + SizeLimit(k) * spare, SizeFormat(k), 1, SizeLimit(k), 0, size, spare);
  }

  /** The extension of the time stamp stands directly above it: the widths are those of the two fields, so
      that stamp and extension together use every value of the whole width exactly once. */
  lemma StampIsWhole(k: FrameKind, l: DataLayout)
    requires FamilyLayout(k, l)
    ensures forall f: Fields :: f.above == 0 ==> (TimeOk(k, f) <==> f.ts < Pow2(l.tsBits))
    ensures l.hasExtras ==> forall f: Fields :: ExtrasOk(l, f) ==> f.extended < Pow2(if ExtensionBits(l) > 0 then ExtensionBits(l) else 16)
    ensures ExtensionBits(l) > 0 ==> Pow2(ExtensionBits(l)) == if l.extrasConfig then 0x1_0000 else 0x8000
  {
    hide Pow2, LayoutConsistent;
    PowerTable();
  }
}
