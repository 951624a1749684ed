/** Decoding inverts encoding: couples, aggregates and whole streams with garbage between aggregates
    and a cut-off aggregate at the end. */
module RoundTrip {
  import opened Words
  import opened Arithmetic
  import opened DataFrames
  import opened Parsing
  import opened Stamping
  import opened Decoder
  import opened DecodingLaws
  import opened Encoding
  import opened ReservedWords

  /** A couple: a size word (whose other bits are free), a format word and complete events. */
  datatype Couple = Couple(sizeWord: Word, form: Word, events: seq<Fields>)

  /** A board aggregate. `spare` are the header bits the decoder ignores. */
  datatype Aggregate = Aggregate(board: nat, fail: bool, mask: nat, spare: nat, counter: Word, timeTag: Word,
                                 couples: seq<Couple>)

  // ----- couples -----

  predicate EventsOk(k: FrameKind, l: DataLayout, fs: seq<Fields>) {
    forall i :: 0 <= i < |fs| ==> EventOk(k, l, fs[i])
  }

  function EncodeEvents(k: FrameKind, l: DataLayout, fs: seq<Fields>): seq<Word>
    requires EventsOk(k, l, fs)
  {
    if fs == [] then [] else EncodeEvent(k, l, fs[0]) + EncodeEvents(k, l, fs[1..])
  }

  function EventsOf(k: FrameKind, l: DataLayout, board: nat, couple: nat, fs: seq<Fields>): seq<RawEvent> {
    seq(|fs|, i requires 0 <= i < |fs| => EventOf(k, l, board, couple, fs[i]))
  }

  /** Where reserved bits are checked, they are clear. */
  predicate CoupleOk(k: FrameKind, c: Couple) {
    var l := Resolve(k, c.form);
    && l.evtSize > 0
    && EventsOk(k, l, c.events)
    && (Checked(k, l) ==> AllKeepReserved(l, c.events))
    && ExtractBits(c.sizeWord, SizeFormat(k)) == 2 + |EncodeEvents(k, l, c.events)|
  }

  function EncodeCouple(k: FrameKind, c: Couple): seq<Word>
    requires CoupleOk(k, c)
  {
    [c.sizeWord, c.form] + EncodeEvents(k, Resolve(k, c.form), c.events)
  }

  function IncompleteCount(l: DataLayout, n: nat): nat {
    if !l.hasTS || LastWords(l) == 0 then n else 0
  }

  function MeaningOfCouple(k: FrameKind, board: nat, couple: nat, c: Couple): Parsed {
    var l := Resolve(k, c.form);
    Parsed(EventsOf(k, l, board, couple, c.events), 0, 0, 0, 0, IncompleteCount(l, |c.events|))
  }

  lemma {:induction false} EventsRead(k: FrameKind, l: DataLayout, board: nat, couple: nat, fs: seq<Fields>)
    requires FamilyLayout(k, l) && l.evtSize > 0 && EventsOk(k, l, fs)
    ensures ParseEvents(k, l, board, couple, EncodeEvents(k, l, fs)) == EventsOf(k, l, board, couple, fs)
    ensures EventCount(|EncodeEvents(k, l, fs)|, l.evtSize) == |fs|
    decreases |fs|
  {
    hide ParseEvent, EncodeEvent, EventOf, EventOk, LayoutConsistent, EventCount;
    var words := EncodeEvents(k, l, fs);
    EventCountStep(|words|, l.evtSize);
    if fs != [] {
      EventRead(k, l, board, couple, fs[0]);
      EventsRead(k, l, board, couple, fs[1..]);
      assert words[..l.evtSize] == EncodeEvent(k, l, fs[0]) && words[l.evtSize..] == EncodeEvents(k, l, fs[1..]);
    }
  }

  /** An x724 couple is kept exactly when the first and the last word of every event keep clear of the
      bits that only an uninitialised memory is thought to set. */
  lemma {:induction false} KeptIff(k: FrameKind, l: DataLayout, fs: seq<Fields>)
    requires FamilyLayout(k, l) && OneFamily(k) && Checked(k, l) && l.evtSize > 0 && EventsOk(k, l, fs)
    ensures !Condemned(l, EncodeEvents(k, l, fs)) <==> AllKeepReserved(l, fs)
    decreases |fs|
  {
    hide EncodeEvent, EventOk, AnyBit, KeepsReserved, FamilyLayout, FirstWordClear, LastWordClear;
    GuardedIsChecked(k, l);
    if fs != [] {
      var f, words := fs[0], EncodeEvents(k, l, fs);
      EventReserved(k, l, f);
      KeptIff(k, l, fs[1..]);
      var ev := EncodeEvent(k, l, f);
      assert words[0] == ev[0] && words[l.evtSize - 1] == ev[l.evtSize - 1] && words[l.evtSize..] == EncodeEvents(k, l, fs[1..]);
      FirstAndRestKeep(l, fs);
    }
  }

  predicate AllKeepReserved(l: DataLayout, fs: seq<Fields>) {
    forall i :: 0 <= i < |fs| ==> KeepsReserved(l, fs[i])
  }

  lemma FirstAndRestKeep(l: DataLayout, fs: seq<Fields>)
    requires fs != []
    ensures AllKeepReserved(l, fs) <==> FirstWordClear(l, fs[0]) && LastWordClear(l, fs[0]) && AllKeepReserved(l, fs[1..])
  {
    hide FirstWordClear, LastWordClear;
    if KeepsReserved(l, fs[0]) && AllKeepReserved(l, fs[1..]) {
      forall i | 0 <= i < |fs|
        ensures KeepsReserved(l, fs[i])
      {
        if i > 0 {
          assert fs[i] == fs[1..][i - 1];
        }
      }
    }
  }

  /** Events with time stamp and energy always are. */
  lemma EventsAreClean(k: FrameKind, l: DataLayout, fs: seq<Fields>)
    requires FamilyLayout(k, l) && OneFamily(k) && Checked(k, l) && l.hasTS && l.hasEnergy && EventsOk(k, l, fs)
    ensures l.evtSize > 0 && !Condemned(l, EncodeEvents(k, l, fs))
  {
    hide EventsOk, EncodeEvents, Condemned;
    KeptIff(k, l, fs);
  }

  lemma CoupleRead(k: FrameKind, board: nat, couple: nat, c: Couple)
    requires OneFamily(k) && CoupleOk(k, c)
    ensures var w := EncodeCouple(k, c);
            && |w| >= 2 && CoupleFits(k, w) && ExtractBits(w[0], SizeFormat(k)) == |w|
            && ParseCouple(k, board, couple, w) == MeaningOfCouple(k, board, couple, c)
  {
    hide Resolve, ExtractBits, ParseEvents, Condemned, EncodeEvents, EventsOf, EventsOk, EventCount, FamilyLayout, AllKeepReserved;
    var l := Resolve(k, c.form);
    var w := EncodeCouple(k, c);
    assert w[1] == c.form && w[2..] == EncodeEvents(k, l, c.events);
    ResolvedLayout(k, c.form);
    EventsRead(k, l, board, couple, c.events);
    if Checked(k, l) {
      KeptIff(k, l, c.events);
    }
  }

  predicate CouplesOk(k: FrameKind, cs: seq<Couple>) {
    forall i :: 0 <= i < |cs| ==> CoupleOk(k, cs[i])
  }

  function EncodeCouples(k: FrameKind, cs: seq<Couple>): seq<Word>
    requires CouplesOk(k, cs)
  {
    if cs == [] then [] else EncodeCouple(k, cs[0]) + EncodeCouples(k, cs[1..])
  }

  function MeaningOfCouples(k: FrameKind, board: nat, ids: seq<nat>, cs: seq<Couple>): Parsed
    requires |ids| == |cs|
    decreases |cs|
  {
    if cs == [] then NOTHING
    else Join(MeaningOfCouple(k, board, ids[0], cs[0]), MeaningOfCouples(k, board, ids[1..], cs[1..]))
  }

  lemma {:induction false} CouplesRead(k: FrameKind, board: nat, ids: seq<nat>, cs: seq<Couple>)
    requires |ids| == |cs| && OneFamily(k) && CouplesOk(k, cs)
    ensures ParseCouples(k, board, ids, EncodeCouples(k, cs)) == MeaningOfCouples(k, board, ids, cs)
    decreases |cs|
  {
    hide EncodeCouple, ParseCouple, MeaningOfCouple, CoupleOk, ExtractBits, Resolve, OneFamily, ParseCouples, CoupleFits;
    if cs == [] {
      CouplesDone(k, board, ids, EncodeCouples(k, cs));
    } else {
      var w := EncodeCouple(k, cs[0]);
      CoupleRead(k, board, ids[0], cs[0]);
      CouplesRead(k, board, ids[1..], cs[1..]);
      HeadCouple(k, board, [ids[0]], ids[1..], w, EncodeCouples(k, cs[1..]));
      assert [ids[0]] + ids[1..] == ids && [ids[0]][1..] + ids[1..] == ids[1..];
      assert w[..|w|] == w && w[|w|..] + EncodeCouples(k, cs[1..]) == EncodeCouples(k, cs[1..]);
    }
  }

  // ----- aggregates -----

  predicate AggregateOk(boards: map<nat, BoardCfg>, a: Aggregate) {
    && a.board in boards && a.board < 32 && OneFamily(boards[a.board].kind)
    && a.mask < 0x100 && a.spare < 0x4_0000
    && |a.couples| == |Couples(a.mask)|
    && CouplesOk(boards[a.board].kind, a.couples)
    && AGG_HEADER_WORDS + |EncodeCouples(boards[a.board].kind, a.couples)| < 0x1000_0000
  }

  function HeaderWord(a: Aggregate): Word
    requires a.board < 32 && a.mask < 0x100 && a.spare < 0x4_0000
  {
    a.mask + 0x100 * a.spare + 0x400_0000 * BitOf(a.fail) + 0x800_0000 * a.board
  }

  function EncodeAggregate(boards: map<nat, BoardCfg>, a: Aggregate): (w: seq<Word>)
    requires AggregateOk(boards, a)
    ensures |w| >= AGG_HEADER_WORDS
  {
    var body := EncodeCouples(boards[a.board].kind, a.couples);
    [0xA000_0000 + AGG_HEADER_WORDS + |body|, HeaderWord(a), a.counter, a.timeTag] + body
  }

  function MeaningOfAggregate(boards: map<nat, BoardCfg>, a: Aggregate): Parsed
    requires AggregateOk(boards, a)
  {
    Join(NOTHING.(boardFail := BitOf(a.fail)),
         MeaningOfCouples(boards[a.board].kind, a.board, Couples(a.mask), a.couples))
  }

  /** Bits below bit n are those of the part below. */
  lemma {:induction false} LowBits(m: nat, x: nat, n: nat, b: nat)
    requires b < n
    ensures Bit(m + Pow2(n) * x, b) == Bit(m, b)
  {
    var y := Pow2(n - 1) * x;
    assert Pow2(n) * x == 2 * y;
    if b > 0 {
      LowBits(m / 2, x, n - 1, b - 1);
      assert (m + 2 * y) / 2 == m / 2 + y;
    }
  }

  lemma {:induction false} SameCouples(w: Word, mask: Word, x: nat, b: nat)
    requires b <= 8 && w == mask + 0x100 * x
    ensures CouplesBelow(w, b) == CouplesBelow(mask, b)
  {
    hide Bit, Pow2;
    if b > 0 {
      SameCouples(w, mask, x, b - 1);
      PowerTable();
      LowBits(mask, x, 8, b - 1);
    }
  }

  lemma HeaderRead(a: Aggregate)
    requires a.board < 32 && a.mask < 0x100 && a.spare < 0x4_0000
    ensures var w := HeaderWord(a);
            && ExtractBits(w, BITS_27_31) == a.board
            && FailCount(w) == BitOf(a.fail)
            && Couples(w) == Couples(a.mask)
  {
    hide ExtractBits, Bit, Pow2;
    PowerTable();
    var w := HeaderWord(a);
    var fail := BitOf(a.fail);
    FieldRead(w, BITS_27_31, 0x800_0000, 0x20, a.mask + 0x100 * a.spare + 0x400_0000 * fail, a.board, 0);
    FlagRead(w, BIT_26, 0x400_0000, a.mask + 0x100 * a.spare, fail, a.board);
    SameCouples(w, a.mask, a.spare + 0x4_0000 * (fail + 2 * a.board), 8);
  }

  lemma MarkerRead(len: nat)
    requires len < 0x1000_0000
    ensures Marker(0xA000_0000 + len) && AggLength(0xA000_0000 + len) == len
  {
    hide ExtractBits, Pow2;
    PowerTable();
    var w := 0xA000_0000 + len;
    FieldRead(w, BITS_28_31, 0x1000_0000, 0x10, len, 0xA, 0);
    FieldRead(w, BITS_0_27, 1, 0x1000_0000, 0, len, 0xA);
  }

  lemma AggregateRead(boards: map<nat, BoardCfg>, a: Aggregate)
    requires AggregateOk(boards, a)
    ensures WholeAggregate(EncodeAggregate(boards, a))
    ensures ParseAggregate(boards, EncodeAggregate(boards, a)) == MeaningOfAggregate(boards, a)
  {
    hide ExtractBits, EncodeCouples, CouplesOk, ParseCouples, MeaningOfCouples, Couples, HeaderWord, FailCount, Marker, AggLength;
    var w := EncodeAggregate(boards, a);
    var k := boards[a.board].kind;
    var body := EncodeCouples(k, a.couples);
    assert w[AGG_HEADER_WORDS..] == body && w[1] == HeaderWord(a);
    HeaderRead(a);
    MarkerRead(AGG_HEADER_WORDS + |body|);
    CouplesRead(k, a.board, Couples(a.mask), a.couples);
  }

  // ----- streams -----

  /** Words between aggregates, none of which is a marker, then an aggregate. */
  datatype Item = Item(garbage: seq<Word>, aggregate: Aggregate)

  predicate Garbage(ws: seq<Word>) {
    forall i :: 0 <= i < |ws| ==> !Marker(ws[i])
  }

  predicate StreamOk(boards: map<nat, BoardCfg>, items: seq<Item>) {
    forall i :: 0 <= i < |items| ==> Garbage(items[i].garbage) && AggregateOk(boards, items[i].aggregate)
  }

  function EncodeStream(boards: map<nat, BoardCfg>, items: seq<Item>): seq<Word>
    requires StreamOk(boards, items)
  {
    if items == [] then []
    else items[0].garbage + EncodeAggregate(boards, items[0].aggregate) + EncodeStream(boards, items[1..])
  }

  function MeaningOfStream(boards: map<nat, BoardCfg>, items: seq<Item>): Parsed
    requires StreamOk(boards, items)
  {
    if items == [] then NOTHING
    else Join(MeaningOfAggregate(boards, items[0].aggregate), MeaningOfStream(boards, items[1..]))
  }

  /** The end of a buffer: garbage, then a proper prefix of one more aggregate. */
  predicate CutOff(boards: map<nat, BoardCfg>, tail: seq<Word>, garbage: seq<Word>, last: Aggregate, cut: nat) {
    && Garbage(garbage) && AggregateOk(boards, last)
    && cut < |EncodeAggregate(boards, last)|
    && tail == garbage + EncodeAggregate(boards, last)[..cut]
  }

  lemma CutOffIsNothing(boards: map<nat, BoardCfg>, tail: seq<Word>, garbage: seq<Word>, last: Aggregate, cut: nat)
    requires CutOff(boards, tail, garbage, last, cut)
    ensures ParseBuffer(boards, tail) == NOTHING
  {
    hide Marker, AggLength, ParseAggregate, AggregateOk, EncodeAggregate;
    var w := EncodeAggregate(boards, last);
    AggregateRead(boards, last);
    GarbageIsSkipped(boards, garbage, w[..cut]);
  }

  /** Decoding inverts encoding: of any well-formed stream, with garbage between the aggregates and a
      cut-off one at the end, exactly the encoded events come out, in order, with every field. */
  lemma {:induction false} DecodeInvertsEncode(boards: map<nat, BoardCfg>, items: seq<Item>,
                                               tail: seq<Word>, garbage: seq<Word>, last: Aggregate, cut: nat)
    requires StreamOk(boards, items) && CutOff(boards, tail, garbage, last, cut)
    ensures ParseBuffer(boards, EncodeStream(boards, items) + tail) == MeaningOfStream(boards, items)
    decreases |items|
  {
    hide AggregateOk, EncodeAggregate, MeaningOfAggregate, ParseAggregate, ParseBuffer, CutOff, Garbage, Join;
    if items == [] {
      assert EncodeStream(boards, items) + tail == tail;
      CutOffIsNothing(boards, tail, garbage, last, cut);
    } else {
      var g, a := items[0].garbage, EncodeAggregate(boards, items[0].aggregate);
      var rest := EncodeStream(boards, items[1..]) + tail;
      DecodeInvertsEncode(boards, items[1..], tail, garbage, last, cut);
      AggregateRead(boards, items[0].aggregate);
      assert EncodeStream(boards, items) + tail == g + (a + rest);
      SkipItem(boards, g, a, rest);
    }
  }

  lemma SkipItem(boards: map<nat, BoardCfg>, g: seq<Word>, a: seq<Word>, rest: seq<Word>)
    requires Garbage(g) && WholeAggregate(a)
    ensures ParseBuffer(boards, g + (a + rest)) == Join(ParseAggregate(boards, a), ParseBuffer(boards, rest))
  {
    GarbageIsSkipped(boards, g, a + rest);
    AggregateFirst(boards, a, rest);
  }

  /** A well-formed stream counts no corruption and condemns nothing. */
  lemma {:induction false} StreamIsSound(boards: map<nat, BoardCfg>, items: seq<Item>)
    requires StreamOk(boards, items)
    ensures var p := MeaningOfStream(boards, items);
            p.corrupt == 0 && p.uninitialised == 0 && p.uninitialisedEvents == 0
    decreases |items|
  {
    hide AggregateOk, MeaningOfCouples, Couples;
    if items != [] {
      var a := items[0].aggregate;
      assert AggregateOk(boards, a);
      CouplesAreSound(boards, a);
      StreamIsSound(boards, items[1..]);
    }
  }

  lemma CouplesAreSound(boards: map<nat, BoardCfg>, a: Aggregate)
    requires AggregateOk(boards, a)
    ensures var p := MeaningOfAggregate(boards, a);
            p.corrupt == 0 && p.uninitialised == 0 && p.uninitialisedEvents == 0
  {
    hide CouplesOk, EncodeCouples, Couples, OneFamily;
    CoupleListIsSound(boards[a.board].kind, a.board, Couples(a.mask), a.couples);
  }

  lemma {:induction false} CoupleListIsSound(k: FrameKind, board: nat, ids: seq<nat>, cs: seq<Couple>)
    requires |ids| == |cs|
    ensures var p := MeaningOfCouples(k, board, ids, cs);
            p.corrupt == 0 && p.uninitialised == 0 && p.uninitialisedEvents == 0 && p.boardFail == 0
    decreases |cs|
  {
    hide EventsOf, Resolve, IncompleteCount;
    if cs != [] {
      CoupleListIsSound(k, board, ids[1..], cs[1..]);
    }
  }
}
