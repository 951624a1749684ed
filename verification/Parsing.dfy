/** What a readout buffer says, word by word and without any state: the events it carries, still in
    counter ticks, and the faults found on the way. */
module Parsing {
  import opened Words
  import opened Arithmetic
  import opened DataFrames

  const AGG_HEADER_WORDS: nat := 4
  const MAX_CHANNELS: nat := 16
  const MAX_COUPLES: nat := 8

  /** What a registered board is decoded with. */
  datatype BoardCfg = BoardCfg(kind: FrameKind, psPerTick: nat)

  /** An event as its words spell it. `timed` says whether it carries a time stamp, `width` how many
      bits that stamp counts over. */
  datatype RawEvent = RawEvent(
    board: nat, channel: nat,
    timestamp: nat, timed: bool, width: nat, fineTS: nat, fineBits: nat,
    energy: nat, qshort: nat, qlong: nat,
    pileup: bool, lost: bool, satu: bool,
    wave: seq<nat>)

  /** Events in order, and how often each counter of the decoder is bumped. */
  datatype Parsed = Parsed(
    events: seq<RawEvent>,
    corrupt: nat, boardFail: nat, uninitialised: nat, uninitialisedEvents: nat, incomplete: nat)

  const NOTHING := Parsed([], 0, 0, 0, 0, 0)
  const CORRUPT := Parsed([], 1, 0, 0, 0, 0)

  function Join(a: Parsed, b: Parsed): Parsed {
    Parsed(a.events + b.events, a.corrupt + b.corrupt, a.boardFail + b.boardFail,
           a.uninitialised + b.uninitialised, a.uninitialisedEvents + b.uninitialisedEvents,
           a.incomplete + b.incomplete)
  }

  lemma JoinAssociates(a: Parsed, b: Parsed, c: Parsed)
    ensures Join(Join(a, b), c) == Join(a, Join(b, c))
  {
    assert (a.events + b.events) + c.events == a.events + (b.events + c.events);
  }

  lemma JoinNothing(a: Parsed)
    ensures Join(NOTHING, a) == a && Join(a, NOTHING) == a
  {
    assert [] + a.events == a.events && a.events + [] == a.events;
  }

  // ----- one event -----

  function TimeWord(l: DataLayout, ev: seq<Word>): Word
    requires l.hasTS ==> ev != []
  {
    if l.hasTS then ev[0] else 0
  }

  function LastWord(l: DataLayout, ev: seq<Word>): Word
    requires LastWords(l) > 0 ==> ev != []
  {
    if LastWords(l) > 0 then ev[|ev| - 1] else 0
  }

  function ChannelOf(l: DataLayout, couple: nat, timeWord: Word): nat {
    if l.hasChannelBit then ExtractBits(timeWord, BITS_31_31) + couple * 2 else couple
  }

  /** What the extras word adds to an event. */
  datatype Extras = Extras(extendedTS: nat, extendedBits: nat, fineTS: nat, fineBits: nat, satu: bool, lost: bool)

  const NO_EXTRAS := Extras(0, 0, 0, 0, false, false)

  function ExtrasPHA(l: DataLayout, x: Word): Extras {
    Extras(
      if l.extrasMode <= 2 then ExtractBits(x, BITS_16_31) else 0,
      if l.extrasMode <= 2 then 16 else 0,
      if l.extrasMode == 2 then ExtractBits(x, BITS_0_9) else 0,
      if l.extrasMode == 2 then 10 else 0,
      false, false)
  }

  function ExtrasPSD(l: DataLayout, x: Word): Extras {
    if l.extrasConfig then
      ExtrasPHA(l, x).(satu := l.extrasMode == 1 && Bit(x, BIT_14), lost := l.extrasMode == 1 && Bit(x, BIT_12))
    else
      Extras(ExtractBits(x, BITS_0_14), 15, 0, 0, false, false)
  }

  function ExtrasOf(k: FrameKind, l: DataLayout, ev: seq<Word>): Extras
    requires |ev| == l.evtSize && LayoutConsistent(k, l)
  {
    if !l.hasExtras then NO_EXTRAS
    else
      var x := ev[|ev| - 1 - LastWords(l)];
      if k.pha then ExtrasPHA(l, x) else ExtrasPSD(l, x)
  }

  /** The samples of trace 1: one per word of a dual trace, else two per word. */
  function Samples(l: DataLayout, ws: seq<Word>): seq<nat> {
    if l.dualTrace then
      seq(|ws|, i requires 0 <= i < |ws| => ExtractBits(ws[i], l.fmtSample))
    else
      seq(2 * |ws|, i requires 0 <= i < 2 * |ws| =>
        if i % 2 == 0 then ExtractBits(ws[i / 2], l.fmtSample) else ExtractBits(ws[i / 2], HighHalf(l.fmtSample)))
  }

  function HighHalf(r: BitRange): BitRange {
    BitRange(r.lo + 16, r.hi + 16)
  }

  function TraceOf(k: FrameKind, l: DataLayout, ev: seq<Word>): seq<nat>
    requires |ev| == l.evtSize && LayoutConsistent(k, l)
  {
    if !l.hasTrace then []
    else
      var first := if l.hasTS then 1 else 0;
      Samples(l, ev[first..first + l.numSamples / 2])
  }

  /** The time stamp with its extension above it. */
  function Extended(x: Extras, rawTS: nat, tsBits: nat): nat {
    if x.extendedBits > 0 then Shl(x.extendedTS, tsBits) + rawTS else rawTS
  }

  function ParseEvent(k: FrameKind, l: DataLayout, board: nat, couple: nat, ev: seq<Word>): RawEvent
    requires |ev| == l.evtSize && LayoutConsistent(k, l)
  {
    var timeWord := TimeWord(l, ev);
    var data := LastWord(l, ev);
    var x := ExtrasOf(k, l, ev);
    var flags := ExtractBits(data, l.fmtExtras);
    RawEvent(
      board, ChannelOf(l, couple, timeWord),
      Extended(x, ExtractBits(timeWord, l.fmtTS), l.tsBits), l.hasTS, l.tsBits + x.extendedBits, x.fineTS, x.fineBits,
      if k.pha then ExtractBits(data, BITS_0_14) else 0,
      if k.pha then 0 else ExtractBits(data, BITS_0_14),
      if k.pha then 0 else ExtractBits(data, BITS_16_31),
      Bit(data, BIT_15),
      if k.pha then Bit(flags, BIT_5) else x.lost,
      if k.pha then Bit(flags, BIT_4) || Bit(flags, BIT_7) else x.satu,
      TraceOf(k, l, ev))
  }

  // ----- one couple -----

  /** The complete events of a payload; a rest shorter than an event is ignored. */
  function ParseEvents(k: FrameKind, l: DataLayout, board: nat, couple: nat, payload: seq<Word>): seq<RawEvent>
    requires LayoutConsistent(k, l) && l.evtSize > 0
    decreases |payload|
  {
    if |payload| < l.evtSize then []
    else [ParseEvent(k, l, board, couple, payload[..l.evtSize])]
         + ParseEvents(k, l, board, couple, payload[l.evtSize..])
  }

  /** An event of the payload sets a bit that a working board never sets. */
  predicate Condemned(l: DataLayout, payload: seq<Word>)
    requires l.evtSize > 0
    decreases |payload|
  {
    |payload| >= l.evtSize &&
    (AnyBit(payload[0], l.resTS) || AnyBit(payload[l.evtSize - 1], l.resEnergy) || Condemned(l, payload[l.evtSize..]))
  }

  predicate Checked(k: FrameKind, l: DataLayout) {
    k.pha && (l.resTS != [] || l.resEnergy != [])
  }

  /** Complete events in a payload. */
  function EventCount(words: nat, evtSize: nat): nat
    requires evtSize > 0
  {
    words / evtSize
  }

  /** A couple, given as exactly its own words. */
  function ParseCouple(k: FrameKind, board: nat, couple: nat, w: seq<Word>): Parsed
    requires |w| >= 2 && Resolve(k, w[1]).evtSize > 0
  {
    var l := Resolve(k, w[1]);
    ResolveConsistent(k, w[1]);
    var payload := w[2..];
    var n := EventCount(|payload|, l.evtSize);
    if Checked(k, l) && Condemned(l, payload) then Parsed([], 0, 0, 1, n, 0)
    else Parsed(ParseEvents(k, l, board, couple, payload), 0, 0, 0, 0,
                if !l.hasTS || LastWords(l) == 0 then n else 0)
  }

  /** The couple at the head of an aggregate's body can be walked over. */
  predicate CoupleFits(k: FrameKind, body: seq<Word>) {
    && |body| >= 2
    && 2 <= ExtractBits(body[0], SizeFormat(k)) <= |body|
    && Resolve(k, body[1]).evtSize > 0
  }

  /** The couples of an aggregate, in mask order; the first that does not fit ends it. */
  function ParseCouples(k: FrameKind, board: nat, couples: seq<nat>, body: seq<Word>): Parsed
    decreases |couples|
  {
    if couples == [] then NOTHING
    else if !CoupleFits(k, body) then CORRUPT
    else
      var size := ExtractBits(body[0], SizeFormat(k));
      Join(ParseCouple(k, board, couples[0], body[..size]), ParseCouples(k, board, couples[1..], body[size..]))
  }

  /** The couples below `b` that the low bits of the second header word announce. */
  function CouplesBelow(w: Word, b: nat): (couples: seq<nat>)
    ensures forall i :: 0 <= i < |couples| ==> couples[i] < b
  {
    if b == 0 then [] else CouplesBelow(w, b - 1) + (if Bit(w, b - 1) then [b - 1] else [])
  }

  function Couples(w: Word): (couples: seq<nat>)
    ensures forall i :: 0 <= i < |couples| ==> couples[i] < 8
  {
    CouplesBelow(w, MAX_COUPLES)
  }

  /** Exactly the couples whose mask bit is set, each once, in order. */
  lemma {:induction false} CouplesAreMaskBits(w: Word, b: nat)
    ensures var cs := CouplesBelow(w, b);
            && (forall c: nat :: c in cs <==> c < b && Bit(w, c))
            && forall i, j :: 0 <= i < j < |cs| ==> cs[i] < cs[j]
  {
    hide Bit;
    if b > 0 {
      CouplesAreMaskBits(w, b - 1);
    }
  }

  /** The eight low bits of the second header word announce the eight couples. */
  lemma EightCouples(w: Word, c: nat)
    ensures c in Couples(w) <==> c < 8 && Bit(w, c)
  {
    hide CouplesBelow, Bit;
    CouplesAreMaskBits(w, 8);
  }

  /** The couples that are walked over: consecutive, each as long as its first word says, at least its own
      two header words and within the aggregate, with a layout that has events. */
  ghost predicate WalkFits(k: FrameKind, n: nat, body: seq<Word>, ends: seq<nat>) {
    && |ends| == n + 1 && ends[0] == 0
    && forall i :: 0 <= i < n ==> WalkStep(k, body, ends[i], ends[i + 1])
  }

  predicate WalkStep(k: FrameKind, body: seq<Word>, here: nat, next: nat) {
    && here + 2 <= next <= |body|
    && next == here + ExtractBits(body[here], SizeFormat(k)) && Resolve(k, body[here + 1]).evtSize > 0
  }

  lemma {:induction false} SoundWalk(k: FrameKind, board: nat, couples: seq<nat>, body: seq<Word>) returns (ends: seq<nat>)
    requires ParseCouples(k, board, couples, body).corrupt == 0
    ensures WalkFits(k, |couples|, body, ends)
    decreases |couples|
  {
    hide Resolve, ExtractBits, ParseEvents, Condemned, EventCount;
    if couples == [] {
      ends := [0];
    } else {
      var size := ExtractBits(body[0], SizeFormat(k));
      var rest := SoundWalk(k, board, couples[1..], body[size..]);
      ends := [0] + seq(|rest|, i requires 0 <= i < |rest| => rest[i] + size);
      forall i | 0 <= i < |couples|
        ensures WalkStep(k, body, ends[i], ends[i + 1])
      {
        if i > 0 {
          assert WalkStep(k, body[size..], rest[i - 1], rest[i]);
        }
      }
    }
  }

  lemma {:induction false} WalkIsSound(k: FrameKind, board: nat, couples: seq<nat>, body: seq<Word>, ends: seq<nat>)
    requires WalkFits(k, |couples|, body, ends)
    ensures ParseCouples(k, board, couples, body).corrupt == 0
    decreases |couples|
  {
    hide Resolve, ExtractBits, ParseEvents, Condemned, EventCount;
    if couples != [] {
      assert WalkStep(k, body, ends[0], ends[1]);
      var size := ends[1];
      var rest := seq(|couples|, i requires 0 <= i < |couples| => WalkEnd(ends, i + 1, size));
      forall i | 0 <= i < |couples| - 1
        ensures WalkStep(k, body[size..], rest[i], rest[i + 1])
      {
        EndsGrow(k, body, ends, |couples|, i + 1);
        EndsGrow(k, body, ends, |couples|, i + 2);
        assert WalkStep(k, body, ends[i + 1], ends[i + 2]);
      }
      WalkIsSound(k, board, couples[1..], body[size..], rest);
    }
  }

  function WalkEnd(ends: seq<nat>, i: nat, size: nat): nat
    requires i < |ends|
  {
    if ends[i] >= size then ends[i] - size else 0
  }

  lemma {:induction false} EndsGrow(k: FrameKind, body: seq<Word>, ends: seq<nat>, n: nat, i: nat)
    requires WalkFits(k, n, body, ends) && 1 <= i <= n
    ensures ends[i] >= ends[1]
  {
    hide Resolve, ExtractBits;
    if i > 1 {
      EndsGrow(k, body, ends, n, i - 1);
      assert WalkStep(k, body, ends[i - 1], ends[i]);
    }
  }

  /** An aggregate is counted as corrupt, once, exactly when its couples cannot all be walked over. */
  lemma CorruptIff(k: FrameKind, board: nat, couples: seq<nat>, body: seq<Word>)
    ensures ParseCouples(k, board, couples, body).corrupt == 0 <==> exists ends :: WalkFits(k, |couples|, body, ends)
    ensures ParseCouples(k, board, couples, body).corrupt <= 1
  {
    hide WalkFits, ParseCouples;
    AtMostOnce(k, board, couples, body);
    if ParseCouples(k, board, couples, body).corrupt == 0 {
      var ends := SoundWalk(k, board, couples, body);
    }
    if ends :| WalkFits(k, |couples|, body, ends) {
      WalkIsSound(k, board, couples, body, ends);
    }
  }

  lemma {:induction false} AtMostOnce(k: FrameKind, board: nat, couples: seq<nat>, body: seq<Word>)
    ensures ParseCouples(k, board, couples, body).corrupt <= 1
    decreases |couples|
  {
    hide Resolve, ExtractBits, ParseEvents, Condemned, EventCount;
    if couples != [] && CoupleFits(k, body) {
      AtMostOnce(k, board, couples[1..], body[ExtractBits(body[0], SizeFormat(k))..]);
    }
  }

  // ----- aggregates and buffers -----

  function BoardOf(agg: seq<Word>): nat
    requires |agg| >= 2
  {
    ExtractBits(agg[1], BITS_27_31)
  }

  /** The board-FAIL bit of the second header word. */
  function FailCount(w: Word): nat {
    if Bit(w, BIT_26) then 1 else 0
  }

  function ParseAggregate(boards: map<nat, BoardCfg>, agg: seq<Word>): Parsed
    requires |agg| >= AGG_HEADER_WORDS
  {
    var board := BoardOf(agg);
    Join(
      NOTHING.(boardFail := FailCount(agg[1])),
      if board in boards && Supported(boards[board].kind)
      then ParseCouples(boards[board].kind, board, Couples(agg[1]), agg[AGG_HEADER_WORDS..])
      else NOTHING)
  }

  /** 1010 in the four highest bits starts a board aggregate. */
  predicate Marker(w: Word) {
    ExtractBits(w, BITS_28_31) == 0xA
  }

  function AggLength(w: Word): (n: nat)
    ensures n < 0x1000_0000 && n == w % 0x1000_0000
  {
    FieldTable(w);
    ExtractBits(w, BITS_0_27)
  }

  /** The walk over a buffer: it resynchronises word by word and stops at a partial aggregate. */
  function ParseBuffer(boards: map<nat, BoardCfg>, w: seq<Word>): Parsed
    decreases |w|
  {
    if |w| < AGG_HEADER_WORDS then NOTHING
    else if !Marker(w[0]) then ParseBuffer(boards, w[1..])
    else
      var n := AggLength(w[0]);
      if n < AGG_HEADER_WORDS then Join(CORRUPT, ParseBuffer(boards, w[1..]))
      else if n > |w| then NOTHING
      else Join(ParseAggregate(boards, w[..n]), ParseBuffer(boards, w[n..]))
  }

  /** What the walk leaves unread: fewer than a header, or a partial aggregate. */
  function Unread(w: seq<Word>): seq<Word>
    decreases |w|
  {
    if |w| < AGG_HEADER_WORDS then w
    else if !Marker(w[0]) then Unread(w[1..])
    else
      var n := AggLength(w[0]);
      if n < AGG_HEADER_WORDS then Unread(w[1..])
      else if n > |w| then w
      else Unread(w[n..])
  }
}
