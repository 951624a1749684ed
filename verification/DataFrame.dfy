/** The bit tables of the supported board families and the event layout a format word selects. */
module DataFrames {
  import opened Words

  /** Which family substrings a model name contains; the name is used for nothing else. */
  datatype Model = Model(x730: bool, x724: bool, x720: bool)

  predicate Contains(s: string, p: string) {
    |p| <= |s| && (s[..|p|] == p || (s != [] && Contains(s[1..], p)))
  }

  predicate StandsAt(s: string, p: string, i: nat) { i + |p| <= |s| && s[i..i + |p|] == p }

  /** `p` stands somewhere in `s`. */
  ghost predicate HasAt(s: string, p: string) { exists i: nat :: StandsAt(s, p, i) }

  lemma OneFurther(s: string, p: string, i: nat)
    requires s != []
    ensures StandsAt(s[1..], p, i) <==> StandsAt(s, p, i + 1)
  {
    if i + 1 + |p| <= |s| {
      assert s[1..][i..i + |p|] == s[i + 1..i + 1 + |p|];
    }
  }

  lemma {:induction false} ContainsIsHasAt(s: string, p: string)
    ensures Contains(s, p) <==> HasAt(s, p)
    decreases |s|
  {
    assert StandsAt(s, p, 0) <==> |p| <= |s| && s[..|p|] == p;
    assert forall i: nat :: StandsAt(s, p, i) ==> |p| <= |s|;
    hide StandsAt;
    if s != [] {
      ContainsIsHasAt(s[1..], p);
      if i: nat :| StandsAt(s[1..], p, i) {
        OneFurther(s, p, i);
      }
      if i: nat :| StandsAt(s, p, i) {
        if i > 0 {
          OneFurther(s, p, i - 1);
        }
      }
    } else {
      NoneBehindEnd(p);
    }
  }

  lemma NoneBehindEnd(p: string)
    ensures forall i: nat :: StandsAt("", p, i) ==> i == 0
  {
  }

  function ModelOf(name: string): Model {
    Model(
      Contains(name, "730") || Contains(name, "725"),
      Contains(name, "724") || Contains(name, "781") || Contains(name, "782"),
      Contains(name, "720"))
  }

  /** Firmware and model: everything that selects a bit table. */
  datatype FrameKind = FrameKind(pha: bool, model: Model)

  predicate Supported(k: FrameKind) {
    k.model.x730 || (if k.pha then k.model.x724 else k.model.x720)
  }

  /** Which names select which family, and no others. */
  lemma FamiliesByName(name: string)
    ensures ModelOf(name).x730 <==> HasAt(name, "730") || HasAt(name, "725")
    ensures ModelOf(name).x724 <==> HasAt(name, "724") || HasAt(name, "781") || HasAt(name, "782")
    ensures ModelOf(name).x720 <==> HasAt(name, "720")
  {
    hide Contains, HasAt;
    ContainsIsHasAt(name, "730");
    ContainsIsHasAt(name, "725");
    ContainsIsHasAt(name, "724");
    ContainsIsHasAt(name, "781");
    ContainsIsHasAt(name, "782");
    ContainsIsHasAt(name, "720");
  }

  /** DPP-PHA boards of the x730 and x724 families can be decoded, DPP-PSD boards of the x730 and x720
      families, and no board of another name. */
  lemma SupportedByName(pha: bool, name: string)
    ensures Supported(FrameKind(pha, ModelOf(name))) <==>
            || HasAt(name, "730") || HasAt(name, "725")
            || (pha && (HasAt(name, "724") || HasAt(name, "781") || HasAt(name, "782")))
            || (!pha && HasAt(name, "720"))
  {
    hide ModelOf, HasAt;
    FamiliesByName(name);
  }

  lemma Infix(a: string, p: string, b: string)
    ensures HasAt(a + p + b, p)
  {
    assert StandsAt(a + p + b, p, |a|);
  }

  /** Whatever stands before and behind the number. */
  lemma NumberSelectsFamily(a: string, b: string)
    ensures ModelOf(a + "730" + b).x730 && ModelOf(a + "725" + b).x730
    ensures ModelOf(a + "724" + b).x724 && ModelOf(a + "781" + b).x724 && ModelOf(a + "782" + b).x724
    ensures ModelOf(a + "720" + b).x720
  {
    hide ModelOf, HasAt;
    Selects730(a, b);
    Selects724(a, b);
    Infix(a, "720", b);
    FamiliesByName(a + "720" + b);
  }

  lemma Selects730(a: string, b: string)
    ensures ModelOf(a + "730" + b).x730 && ModelOf(a + "725" + b).x730
  {
    hide ModelOf, HasAt;
    Infix(a, "730", b);
    FamiliesByName(a + "730" + b);
    Infix(a, "725", b);
    FamiliesByName(a + "725" + b);
  }

  lemma Selects724(a: string, b: string)
    ensures ModelOf(a + "724" + b).x724 && ModelOf(a + "781" + b).x724 && ModelOf(a + "782" + b).x724
  {
    hide ModelOf, HasAt;
    Infix(a, "724", b);
    FamiliesByName(a + "724" + b);
    Infix(a, "781", b);
    FamiliesByName(a + "781" + b);
    Infix(a, "782", b);
    FamiliesByName(a + "782" + b);
  }

  datatype DataLayout = DataLayout(
    evtSize: nat,
    numSamples: nat,
    dualTrace: bool,
    hasTrace: bool,
    hasTS: bool,
    hasEnergy: bool,
    hasCharge: bool,
    hasExtras: bool,
    hasChannelBit: bool,
    extrasConfig: bool,
    extrasMode: nat,
    fmtTS: BitRange,
    fmtExtras: BitRange,
    fmtSample: BitRange,
    tsBits: nat,
    resTS: seq<BitRange>,
    resEnergy: seq<BitRange>)

  const EMPTY_LAYOUT := DataLayout(0, 0, false, false, false, false, false, false, false, false, 0,
                                   BITS_0_30, BITS_0_31, BITS_0_13, 31, [], [])

  /** Bits holding the channel-aggregate size, in its first word. */
  function SizeFormat(k: FrameKind): BitRange {
    if k.pha then
      if k.model.x730 then BITS_0_30 else if k.model.x724 then BITS_0_20 else BITS_0_31
    else
      if k.model.x730 then BITS_0_21 else if k.model.x720 then BITS_0_23 else BITS_0_31
  }

  /** Samples per unit of the NumSamples field. */
  function SampleUnit(k: FrameKind): nat {
    if k.model.x730 then 8
    else if k.pha then (if k.model.x724 then 2 else 0) else (if k.model.x720 then 8 else 0)
  }

  /** The NumSamples field in samples, truncated to 16 bits. */
  function NumSamples(k: FrameKind, form: Word): (n: nat)
    ensures n < 0x1_0000
  {
    var countBits := if k.model.x730 || k.pha then BITS_0_15 else BITS_0_11;
    (ExtractBits(form, countBits) * SampleUnit(k)) % 0x1_0000
  }

  /** The layout of a supported family for one format word. The x724 PHA table puts its flags
      elsewhere than the others; the sample count is truncated to 16 bits. */
  function Resolve(k: FrameKind, form: Word): DataLayout {
    if !Supported(k) then EMPTY_LAYOUT else
    var old724 := !k.model.x730 && k.pha;
    var trace := Bit(form, if old724 then BIT_30 else BIT_27);
    var ts := Bit(form, if old724 then BIT_28 else BIT_29);
    var data := Bit(form, if old724 then BIT_29 else BIT_30);
    var extras := !old724 && Bit(form, BIT_28) && !k.model.x724;
    var numSamples := NumSamples(k, form);
    var fmtTS := if k.model.x730 then BITS_0_30 else if k.pha then BITS_0_29 else BITS_0_31;
    var reserved := k.pha && k.model.x724;
    DataLayout(
      (if data then 1 else 0) + (if ts then 1 else 0) + (if extras then 1 else 0)
        + (if trace then numSamples / 2 else 0),
      numSamples,
      Bit(form, BIT_31),
      trace,
      ts,
      k.pha && data,
      !k.pha && data,
      extras,
      k.model.x730,
      k.model.x730,
      if k.model.x730 then ExtractBits(form, BITS_24_26) else 0,
      fmtTS,
      if !k.pha then BITS_0_31 else if k.model.x730 then BITS_16_20 else BITS_16_23,
      if k.model.x730 || k.pha then BITS_0_13 else BITS_0_11,
      RangeWidth(fmtTS),
      if reserved then [BITS_31_31] else [],
      if reserved then [BITS_28_31, BITS_24_25] else [])
  }

  /** The event is exactly as long as the words its flags announce, and never both firmwares at once. */
  predicate LayoutConsistent(k: FrameKind, l: DataLayout) {
    && l.evtSize == (if l.hasTS then 1 else 0) + (if l.hasExtras then 1 else 0) + LastWords(l)
                    + (if l.hasTrace then l.numSamples / 2 else 0)
    && l.numSamples < 0x1_0000
    && (if k.pha then !l.hasCharge else !l.hasEnergy)
    && l.extrasMode < 8
    && 30 <= l.tsBits <= 32
  }

  lemma ResolveConsistent(k: FrameKind, form: Word)
    ensures LayoutConsistent(k, Resolve(k, form))
  {
    FieldTable(form);
  }

  /** Words after the extras word: the energy or the charge word. */
  function LastWords(l: DataLayout): nat {
    if l.hasEnergy || l.hasCharge then 1 else 0
  }

  /** The frame a board keeps: the last format word it sent and the layout computed from it. */
  datatype DataFrame = DataFrame(kind: FrameKind, formatSet: bool, dataFormat: Word, layout: DataLayout)

  predicate FrameValid(f: DataFrame) {
    f.formatSet ==> f.layout == Resolve(f.kind, f.dataFormat)
  }

  function NewFrame(k: FrameKind): (f: DataFrame)
    ensures FrameValid(f)
  {
    DataFrame(k, false, 0, EMPTY_LAYOUT)
  }

  /** Recomputes the layout only for a new format word. The cache is invisible: the layout is always
      the one of the word just given. */
  method SetDataFormat(f: DataFrame, form: Word) returns (f': DataFrame)
    requires FrameValid(f)
    ensures FrameValid(f') && f'.kind == f.kind
    ensures f'.layout == Resolve(f.kind, form)
  {
    if f.formatSet && form == f.dataFormat {
      return f;
    }
    f' := DataFrame(f.kind, true, form, Resolve(f.kind, form));
  }
}
