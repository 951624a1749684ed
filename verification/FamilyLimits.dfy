/** Where a family's tables meet the promises made for all of them. */
module FamilyLimits {
  import opened Words
  import opened Arithmetic
  import opened DataFrames
  import opened Parsing
  import opened Stamping
  import opened Decoder
  import opened Encoding
  import opened ReservedWords
  import opened RoundTrip
  import opened FormatWords

  const X724_PHA := FrameKind(true, Model(false, true, false))

  /** Events without time stamp or without energy, whose waveform is promised to be kept. */
  predicate Partial(l: DataLayout) { (!l.hasTS || !l.hasEnergy) && l.evtSize > 0 }

  /** An x724 couple of events without time stamp or energy is kept exactly when the first and the last
      word of every event keep clear of the bits that only an uninitialised memory is thought to set; what
      is not kept is lost with its waveforms. */
  lemma PartialKeptIff(board: nat, couple: nat, c: Couple)
    requires var l := Resolve(X724_PHA, c.form);
             && Partial(l) && RoundTrip.EventsOk(X724_PHA, l, c.events)
             && ExtractBits(c.sizeWord, SizeFormat(X724_PHA)) == 2 + |EncodeEvents(X724_PHA, l, c.events)|
    ensures var l := Resolve(X724_PHA, c.form);
            var w := [c.sizeWord, c.form] + EncodeEvents(X724_PHA, l, c.events);
            var p := ParseCouple(X724_PHA, board, couple, w);
            && w[1] == c.form
            && (CoupleOk(X724_PHA, c) <==> AllKeepReserved(l, c.events))
            && (p == MeaningOfCouple(X724_PHA, board, couple, c) <==> AllKeepReserved(l, c.events))
            && (!AllKeepReserved(l, c.events) ==> p == Parsed([], 0, 0, 1, |c.events|, 0))
  {
    hide Resolve, ExtractBits, AllKeepReserved, Condemned, EncodeEvents, EventsOk, ParseEvents, EventCount, RoundTrip.EventsOf;
    var l := Resolve(X724_PHA, c.form);
    ResolvedLayout(X724_PHA, c.form);
    GuardedIsChecked(X724_PHA, l);
    KeptIff(X724_PHA, l, c.events);
    EventsRead(X724_PHA, l, board, couple, c.events);
    var w := [c.sizeWord, c.form] + EncodeEvents(X724_PHA, l, c.events);
    assert w[2..] == EncodeEvents(X724_PHA, l, c.events);
    if c.events == [] {
      NoEventKeeps(l);
    }
    AsManyEvents(X724_PHA, l, board, couple, c.events);
  }

  lemma NoEventKeeps(l: DataLayout)
    ensures AllKeepReserved(l, [])
  {
  }

  lemma AsManyEvents(k: FrameKind, l: DataLayout, board: nat, couple: nat, fs: seq<Fields>)
    ensures |RoundTrip.EventsOf(k, l, board, couple, fs)| == |fs|
  {
  }

  /** Events made of the trace alone. */
  predicate TraceOnly(l: DataLayout) {
    l.hasTrace && !l.hasTS && LastWords(l) == 0 && !l.hasExtras && l.numSamples >= 2
  }

  predicate Survives(f: Fields) {
    f.trace != [] && f.trace[0].highProbes < 2 && KeepsClear(f.trace[|f.trace| - 1])
  }

  /** The same for events of the trace alone: one sample of 256 at the end is enough to lose a couple. */
  lemma TraceOnlyKeptIff(l: DataLayout, fs: seq<Fields>)
    requires FamilyLayout(X724_PHA, l) && TraceOnly(l) && RoundTrip.EventsOk(X724_PHA, l, fs)
    ensures l.evtSize > 0
    ensures !Condemned(l, EncodeEvents(X724_PHA, l, fs)) <==> forall i :: 0 <= i < |fs| ==> Survives(fs[i])
  {
    hide EncodeEvents, Condemned, RoundTrip.EventsOk, KeepsClear, TimeKeepsClear;
    KeptIff(X724_PHA, l, fs);
    assert forall f :: KeepsReserved(l, f) <==> Survives(f);
  }

  lemma FormatBits(form: Word)
    ensures var l := Resolve(X724_PHA, form);
            && l.hasTrace == (form / 0x4000_0000 % 2 == 1) && l.hasEnergy == (form / 0x2000_0000 % 2 == 1)
            && l.hasTS == (form / 0x1000_0000 % 2 == 1) && !l.hasExtras && !l.hasCharge
            && l.numSamples == form % 0x1_0000 * 2 % 0x1_0000
            && FamilyLayout(X724_PHA, l)
  {
    hide Bit, ExtractBits;
    BitTable(form);
    FieldTable(form);
    ResolvedLayout(X724_PHA, form);
  }

  /** A couple of one event that touches a reserved bit. */
  lemma OneEventLost(l: DataLayout, f: Fields)
    requires FamilyLayout(X724_PHA, l) && l.evtSize > 0 && EventOk(X724_PHA, l, f) && !KeepsReserved(l, f)
    ensures Condemned(l, EncodeEvents(X724_PHA, l, [f]))
  {
    hide FamilyLayout, EncodeEvents, Condemned, EventOk, KeepsReserved;
    GuardedIsChecked(X724_PHA, l);
    KeptIff(X724_PHA, l, [f]);
    assert [f][0] == f;
  }

  lemma Sized(l: DataLayout)
    requires FamilyLayout(X724_PHA, l)
    ensures l.evtSize == (if l.hasTS then 1 else 0) + (if l.hasEnergy then 1 else 0) + (if l.hasTrace then l.numSamples / 2 else 0)
  {
  }

  /** A trace of two ordinary samples, the second 256, sent alone by an x724 board: the event and its
      waveform are thrown away as uninitialised memory. */
  lemma TraceOnlyLost(l: DataLayout, f: Fields)
    requires l == Resolve(X724_PHA, 0x4000_0001)
    requires f.trace == [TraceWord(100, 0, 256, 0)]
    ensures TraceOnly(l) && EventOk(X724_PHA, l, f)
    ensures Condemned(l, EncodeEvents(X724_PHA, l, [f]))
  {
    hide Resolve, FamilyLayout, EncodeEvents, Condemned;
    FormatBits(0x4000_0001);
    Sized(l);
    OneEventLost(l, f);
  }

  /** The same trace behind a time stamp. */
  lemma TimedTraceLost(l: DataLayout, f: Fields)
    requires l == Resolve(X724_PHA, 0x5000_0001) && TimeOk(X724_PHA, f)
    requires f.trace == [TraceWord(100, 0, 256, 0)]
    ensures Partial(l) && l.hasTS && l.hasTrace && EventOk(X724_PHA, l, f)
    ensures Condemned(l, EncodeEvents(X724_PHA, l, [f]))
  {
    hide Resolve, FamilyLayout, EncodeEvents, Condemned;
    FormatBits(0x5000_0001);
    Sized(l);
    OneEventLost(l, f);
  }

  /** A trace before an energy, its first word showing the upper digital probe. */
  lemma TracedEnergyLost(l: DataLayout, f: Fields)
    requires l == Resolve(X724_PHA, 0x6000_0001) && DataOk(X724_PHA, f)
    requires f.trace == [TraceWord(100, 0, 0, 2)]
    ensures Partial(l) && l.hasEnergy && l.hasTrace && EventOk(X724_PHA, l, f)
    ensures Condemned(l, EncodeEvents(X724_PHA, l, [f]))
  {
    hide Resolve, FamilyLayout, EncodeEvents, Condemned;
    FormatBits(0x6000_0001);
    Sized(l);
    OneEventLost(l, f);
  }

  /** Events are counted as incomplete exactly when the format announces no time stamp or no data word. */
  lemma IncompleteIff(k: FrameKind, board: nat, couple: nat, c: Couple, f: Format)
    requires OneFamily(k) && (k.pha || !k.model.x724) && FormatOk(k, f) && c.form == EncodeFormat(k, f)
    ensures MeaningOfCouple(k, board, couple, c).incomplete == if f.ts && f.data then 0 else |c.events|
  {
    hide Resolve, EncodeFormat, EventOf, FormatOk;
    FormatIsRead(k, f);
  }

  /** The five flag bits of the x730 PHA energy word end below the lost and double-saturation bits: no
      such event is ever reported lost, and bit 4 alone makes it saturated. */
  lemma PhaX730NeverLost(k: FrameKind, form: Word, board: nat, couple: nat, ev: seq<Word>)
    requires k.pha && k.model.x730 && |ev| == Resolve(k, form).evtSize && LayoutConsistent(k, Resolve(k, form))
    ensures !ParseEvent(k, Resolve(k, form), board, couple, ev).lost
  {
    hide Bit, ExtractBits, NumSamples, TraceOf, ExtrasOf;
    var l := Resolve(k, form);
    var data := LastWord(l, ev);
    FieldTable(data);
    BitTable(ExtractBits(data, l.fmtExtras));
  }
}
