/** The online decoder itself: index loops over one buffer, a shared trace buffer, one clock and one
    cached frame per board, proved to do what the word-level reading of the buffer says. */
module Decoder {
  import opened Words
  import opened Arithmetic
  import opened Clocks
  import opened DataFrames
  import opened Parsing
  import opened Stamping

  /** Stepping over one event takes exactly one off the count. */
  lemma EventCountStep(words: nat, evtSize: nat)
    requires evtSize > 0
    ensures words < evtSize ==> EventCount(words, evtSize) == 0
    ensures words >= evtSize ==> EventCount(words, evtSize) == 1 + EventCount(words - evtSize, evtSize)
  {
    if words < evtSize {
      DivisionUnique(words, evtSize, 0, words);
    } else {
      var q, r := (words - evtSize) / evtSize, (words - evtSize) % evtSize;
      Division(words - evtSize, evtSize);
      DivisionUnique(words, evtSize, q + 1, r);
    }
  }

  /** A payload is condemned by its first event or by what follows it. */
  lemma CondemnedStep(l: DataLayout, buf: seq<Word>, ev: nat, end: nat)
    requires l.evtSize > 0 && ev <= end <= |buf|
    ensures end - ev < l.evtSize ==> !Condemned(l, buf[ev..end])
    ensures end - ev >= l.evtSize ==>
              (Condemned(l, buf[ev..end]) <==>
               AnyBit(buf[ev], l.resTS) || AnyBit(buf[ev + l.evtSize - 1], l.resEnergy) || Condemned(l, buf[ev + l.evtSize..end]))
  {
    hide AnyBit;
    if end - ev >= l.evtSize {
      assert buf[ev..end][l.evtSize..] == buf[ev + l.evtSize..end];
    }
  }

  /** The events of a payload together with their incomplete count. */
  ghost function EventsOf(k: FrameKind, l: DataLayout, board: nat, couple: nat, payload: seq<Word>): Parsed
    requires LayoutConsistent(k, l) && l.evtSize > 0
  {
    Parsed(ParseEvents(k, l, board, couple, payload), 0, 0, 0, 0,
           if !l.hasTS || LastWords(l) == 0 then EventCount(|payload|, l.evtSize) else 0)
  }

  /** One event is split off the head of a payload. */
  lemma EventsOfStep(k: FrameKind, l: DataLayout, board: nat, couple: nat, payload: seq<Word>)
    requires LayoutConsistent(k, l) && 0 < l.evtSize <= |payload|
    ensures EventsOf(k, l, board, couple, payload) ==
            Join(Parsed([ParseEvent(k, l, board, couple, payload[..l.evtSize])], 0, 0, 0, 0,
                        if !l.hasTS || LastWords(l) == 0 then 1 else 0),
                 EventsOf(k, l, board, couple, payload[l.evtSize..]))
  {
    hide ParseEvent, EventCount, LayoutConsistent;
    EventCountStep(|payload|, l.evtSize);
  }

  /** What one event does to the decoder. */
  lemma AdvanceOne(boards: map<nat, BoardCfg>, s: DecState, e: RawEvent, incomplete: nat)
    ensures Advance(boards, s, Parsed([e], 0, 0, 0, 0, incomplete)) ==
            Deliver(boards, s.(incomplete := s.incomplete + incomplete), e)
  {
    var p := Parsed([e], 0, 0, 0, 0, incomplete);
    var s' := s.(incomplete := s.incomplete + incomplete);
    assert Count(s, p) == s';
    assert [e][1..] == [];
    assert DeliverAll(boards, Deliver(boards, s', e), []) == Deliver(boards, s', e);
    assert DeliverAll(boards, s', [e]) == DeliverAll(boards, Deliver(boards, s', e), [e][1..]);
  }

  /** Delivering the events from `ev` on is delivering the one at `ev`, then those behind it. */
  lemma FirstEventDelivered(boards: map<nat, BoardCfg>, s: DecState, k: FrameKind, l: DataLayout,
                            board: nat, couple: nat, buf: seq<Word>, ev: nat, end: nat)
    requires LayoutConsistent(k, l) && 0 < l.evtSize && ev + l.evtSize <= end <= |buf|
    ensures var skipped := if !l.hasTS || LastWords(l) == 0 then 1 else 0;
            var one := ParseEvent(k, l, board, couple, buf[ev..ev + l.evtSize]);
            Advance(boards, s, EventsOf(k, l, board, couple, buf[ev..end])) ==
            Advance(boards, Deliver(boards, s.(incomplete := s.incomplete + skipped), one),
                    EventsOf(k, l, board, couple, buf[ev + l.evtSize..end]))
  {
    hide ParseEvent, EventsOf, Advance, Deliver, LayoutConsistent;
    var rest := buf[ev..end];
    assert rest[..l.evtSize] == buf[ev..ev + l.evtSize];
    assert rest[l.evtSize..] == buf[ev + l.evtSize..end];
    var skipped := if !l.hasTS || LastWords(l) == 0 then 1 else 0;
    var one := ParseEvent(k, l, board, couple, rest[..l.evtSize]);
    EventsOfStep(k, l, board, couple, rest);
    AdvanceJoin(boards, s, Parsed([one], 0, 0, 0, 0, skipped), EventsOf(k, l, board, couple, rest[l.evtSize..]));
    AdvanceOne(boards, s, one, skipped);
  }

  /** A word of the buffer, read by code that has no business outside [start, end): the current couple, or
      the current aggregate for headers. */
  function WordAt(buf: seq<Word>, ghost start: nat, ghost end: nat, i: nat): (w: Word)
    requires start <= i < end <= |buf|
    ensures w == buf[i]
  {
    buf[i]
  }

  class AggregateDecoder {
    var boards: map<nat, BoardCfg>
    var frames: map<nat, DataFrame>
    var clocks: map<nat, ChannelClock>
    var wave: seq<nat>                  // reusable trace buffer
    var emitted: seq<DecodedEvent>      // every call of the event callback, in order
    var corrupt: nat
    var boardFail: nat
    var uninitialised: nat
    var uninitialisedEvents: nat
    var incomplete: nat

    ghost predicate Valid()
      reads this
    {
      forall b :: b in boards ==> b in frames && FrameValid(frames[b]) && frames[b].kind == boards[b].kind
    }

    ghost function State(): DecState
      reads this
    {
      DecState(clocks, emitted, corrupt, boardFail, uninitialised, uninitialisedEvents, incomplete)
    }

    constructor ()
      ensures Valid() && State() == INITIAL && boards == map[]
    {
      boards, frames, clocks, wave, emitted := map[], map[], map[], [], [];
      corrupt, boardFail, uninitialised, uninitialisedEvents, incomplete := 0, 0, 0, 0, 0;
    }

    /** A registered board starts with a fresh clock; nothing else is touched. */
    method RegisterBoard(id: nat, pha: bool, modelName: string, psPerTick: nat)
      requires Valid()
      modifies `boards, `frames, `clocks
      ensures Valid()
      ensures boards == old(boards)[id := BoardCfg(FrameKind(pha, ModelOf(modelName)), psPerTick)]
      ensures boards[id].kind.pha == pha && boards[id].psPerTick == psPerTick
      ensures var model := boards[id].kind.model;
              && (model.x730 <==> HasAt(modelName, "730") || HasAt(modelName, "725"))
              && (model.x724 <==> HasAt(modelName, "724") || HasAt(modelName, "781") || HasAt(modelName, "782"))
              && (model.x720 <==> HasAt(modelName, "720"))
      ensures clocks == old(clocks)[id := FRESH]
    {
      hide ModelOf, HasAt, FrameValid;
      FamiliesByName(modelName);
      FreshFrame(FrameKind(pha, ModelOf(modelName)));
      var kind := FrameKind(pha, ModelOf(modelName));
      boards := boards[id := BoardCfg(kind, psPerTick)];
      frames := frames[id := NewFrame(kind)];
      clocks := clocks[id := FRESH];
    }

    method SetTime(timestamp: nat, board: nat, width: nat, fineTS: nat, fineBits: nat) returns (timePs: int)
      requires board in boards
      modifies `clocks
      ensures var c := ClockOf(old(clocks), board);
              && clocks == old(clocks)[board := Ticked(c, timestamp, width)]
              && timePs == if boards[board].psPerTick == 0 then 0
                           else TimePs(UnwrappedTime(c, timestamp, width), boards[board].psPerTick, fineTS, fineBits)
    {
      hide Ticked, UnwrappedTime, TimePs, Shr, I64, U64;
      var ticks, c' := Unwrap(if board in clocks then clocks[board] else FRESH, timestamp, width);
      clocks := clocks[board := c'];
      var psPerTick := boards[board].psPerTick;
      if psPerTick == 0 {
        return 0;
      }
      timePs := I64(U64(ticks * psPerTick));
      TimeInSteps(ticks, psPerTick, fineTS, fineBits);
      if fineBits > 0 {
        timePs := I64(U64(timePs + Shr(fineTS * psPerTick, fineBits)));
      }
    }

    /** Fills the trace buffer in place. What it held before shows nowhere in the samples returned. */
    method UnpackWave(buf: seq<Word>, l: DataLayout, first: nat, ghost start: nat, ghost end: nat) returns (n: nat)
      requires start <= first && first + l.numSamples / 2 <= end <= |buf|
      modifies `wave
      ensures n <= |wave|
      ensures wave[..n] == Samples(l, buf[first..first + l.numSamples / 2])
    {
      hide ExtractBits, Samples;
      var nWords := l.numSamples / 2;
      if nWords == 0 {
        SamplesOfNone(l, buf[first..first]);
        return 0;
      }
      if l.dualTrace {
        Resize(nWords);
        UnpackDual(buf, l, first, nWords, start, end);
        return nWords;
      }
      Resize(2 * nWords);
      UnpackSingle(buf, l, first, nWords, start, end);
      return 2 * nWords;
    }

    method Resize(n: nat)
      modifies `wave
      ensures |wave| == n
    {
      wave := if n <= |wave| then wave[..n] else wave + seq(n - |wave|, _ => 0);
    }

    /** One sample of trace 1 in every word. */
    method UnpackDual(buf: seq<Word>, l: DataLayout, first: nat, nWords: nat, ghost start: nat, ghost end: nat)
      requires l.dualTrace && start <= first && first + nWords <= end <= |buf| && |wave| == nWords
      modifies `wave
      ensures |wave| == nWords && wave[..nWords] == Samples(l, buf[first..first + nWords])
    {
      hide ExtractBits, Samples;
      SamplesOfNone(l, buf[first..first]);
      var i := 0;
      while i < nWords
        invariant 0 <= i <= nWords && |wave| == nWords
        invariant wave[..i] == Samples(l, buf[first..first + i])
      {
        var sample := ExtractBits(WordAt(buf, start, end, first + i), l.fmtSample);
        SamplesGrow(l, buf, first, i);
        PutOne(wave, i, sample);
        wave := wave[i := sample];
        i := i + 1;
      }
    }

    /** Two samples in every word. */
    method UnpackSingle(buf: seq<Word>, l: DataLayout, first: nat, nWords: nat, ghost start: nat, ghost end: nat)
      requires !l.dualTrace && start <= first && first + nWords <= end <= |buf| && |wave| == 2 * nWords
      modifies `wave
      ensures |wave| == 2 * nWords && wave[..2 * nWords] == Samples(l, buf[first..first + nWords])
    {
      hide ExtractBits, Samples;
      SamplesOfNone(l, buf[first..first]);
      var i := 0;
      ghost var k := 0;
      while i < nWords
        invariant 0 <= i <= nWords && |wave| == 2 * nWords && k == 2 * i
        invariant wave[..k] == Samples(l, buf[first..first + i])
      {
        var w := WordAt(buf, start, end, first + i);
        var low, high := ExtractBits(w, l.fmtSample), ExtractBits(w, HighHalf(l.fmtSample));
        SamplesGrow(l, buf, first, i);
        PutTwo(wave, k, low, high);
        wave := wave[2 * i := low];
        wave := wave[2 * i + 1 := high];
        i, k := i + 1, k + 2;
      }
    }

    /** The PHA extras word. */
    method ReadExtrasPHA(l: DataLayout, extras2: Word) returns (x: Extras)
      ensures x == ExtrasPHA(l, extras2)
    {
      x := NO_EXTRAS;
      if l.extrasMode <= 2 {
        x := x.(extendedTS := ExtractBits(extras2, BITS_16_31), extendedBits := 16);
      }
      if l.extrasMode == 2 {
        x := x.(fineTS := ExtractBits(extras2, BITS_0_9), fineBits := 10);
      }
    }

    /** The PSD extras word: its meaning is in the format word, except on the x720. */
    method ReadExtrasPSD(l: DataLayout, extras2: Word) returns (x: Extras)
      ensures x == ExtrasPSD(l, extras2)
    {
      x := NO_EXTRAS;
      if l.extrasConfig {
        if l.extrasMode <= 2 {
          x := x.(extendedTS := ExtractBits(extras2, BITS_16_31), extendedBits := 16);
        }
        if l.extrasMode == 2 {
          x := x.(fineTS := ExtractBits(extras2, BITS_0_9), fineBits := 10);
        }
        if l.extrasMode == 1 {
          x := x.(satu := Bit(extras2, BIT_14), lost := Bit(extras2, BIT_12));
        }
      } else {
        x := x.(extendedTS := ExtractBits(extras2, BITS_0_14), extendedBits := 15);
      }
    }

    /** The fields of a PHA event, from the words at `ev` on; its trace is unpacked later. */
    method ReadPHA(buf: seq<Word>, board: nat, couple: nat, k: FrameKind, l: DataLayout, ev: nat, ghost start: nat, ghost end: nat)
      returns (e: RawEvent)
      requires k.pha && LayoutConsistent(k, l) && couple < 8
      requires l.evtSize > 0 && start <= ev && ev + l.evtSize <= end <= |buf|
      ensures e == ParseEvent(k, l, board, couple, buf[ev..ev + l.evtSize]).(wave := [])
    {
      hide ExtractBits, Bit, Samples, Shl, Pow2;
      ghost var words := buf[ev..ev + l.evtSize];
      assert words[0] == buf[ev] && words[|words| - 1] == buf[ev + l.evtSize - 1];
      var timeWord: Word := if l.hasTS then WordAt(buf, start, end, ev) else 0;
      var energyWord: Word := if l.hasEnergy then WordAt(buf, start, end, ev + l.evtSize - 1) else 0;
      var lastWords := if l.hasEnergy then 1 else 0;
      var rawTS := ExtractBits(timeWord, l.fmtTS);
      var channel := couple;
      if l.hasChannelBit {
        channel := ExtractBits(timeWord, BITS_31_31) + couple * 2;
      }
      ChannelBelowMax(l, couple, timeWord);
      assert channel < MAX_CHANNELS;  // so the skip of larger channels is never taken
      var x := NO_EXTRAS;
      if l.hasExtras {
        var extras2 := WordAt(buf, start, end, ev + l.evtSize - 1 - lastWords);
        assert extras2 == words[|words| - 1 - LastWords(l)];
        x := ReadExtrasPHA(l, extras2);
      }
      var flags := ExtractBits(energyWord, l.fmtExtras);
      e := RawEvent(
        board, channel,
        if x.extendedBits > 0 then Shl(x.extendedTS, l.tsBits) + rawTS else rawTS,
        l.hasTS, l.tsBits + x.extendedBits, x.fineTS, x.fineBits,
        ExtractBits(energyWord, BITS_0_14), 0, 0,
        Bit(energyWord, BIT_15), Bit(flags, BIT_5), Bit(flags, BIT_4) || Bit(flags, BIT_7), []);
      assert TimeWord(l, words) == timeWord && LastWord(l, words) == energyWord;
    }

    /** The fields of a PSD event. */
    method ReadPSD(buf: seq<Word>, board: nat, couple: nat, k: FrameKind, l: DataLayout, ev: nat, ghost start: nat, ghost end: nat)
      returns (e: RawEvent)
      requires !k.pha && LayoutConsistent(k, l) && couple < 8
      requires l.evtSize > 0 && start <= ev && ev + l.evtSize <= end <= |buf|
      ensures e == ParseEvent(k, l, board, couple, buf[ev..ev + l.evtSize]).(wave := [])
    {
      hide ExtractBits, Bit, Samples, Shl, Pow2;
      ghost var words := buf[ev..ev + l.evtSize];
      assert words[0] == buf[ev] && words[|words| - 1] == buf[ev + l.evtSize - 1];
      var timeWord: Word := if l.hasTS then WordAt(buf, start, end, ev) else 0;
      var chargeWord: Word := if l.hasCharge then WordAt(buf, start, end, ev + l.evtSize - 1) else 0;
      var lastWords := if l.hasCharge then 1 else 0;
      var rawTS := ExtractBits(timeWord, l.fmtTS);
      var channel := couple;
      if l.hasChannelBit {
        channel := ExtractBits(timeWord, BITS_31_31) + couple * 2;
      }
      ChannelBelowMax(l, couple, timeWord);
      assert channel < MAX_CHANNELS;  // so the skip of larger channels is never taken
      var x := NO_EXTRAS;
      if l.hasExtras {
        var extras2 := WordAt(buf, start, end, ev + l.evtSize - 1 - lastWords);
        assert extras2 == words[|words| - 1 - LastWords(l)];
        x := ReadExtrasPSD(l, extras2);
      }
      e := RawEvent(
        board, channel,
        if x.extendedBits > 0 then Shl(x.extendedTS, l.tsBits) + rawTS else rawTS,
        l.hasTS, l.tsBits + x.extendedBits, x.fineTS, x.fineBits,
        0, ExtractBits(chargeWord, BITS_0_14), ExtractBits(chargeWord, BITS_16_31),
        Bit(chargeWord, BIT_15), x.lost, x.satu, []);
      assert TimeWord(l, words) == timeWord && LastWord(l, words) == chargeWord;
    }

    /** The rest of an event's body: counted, placed in time, its trace unpacked, handed to the callback. */
    method Emit(buf: seq<Word>, l: DataLayout, ev: nat, e: RawEvent, ghost start: nat, ghost end: nat)
      requires e.board in boards
      requires start <= ev && end <= |buf| && (l.hasTrace ==> ev + (if l.hasTS then 1 else 0) + l.numSamples / 2 <= end)
      requires e.timed == l.hasTS && e.wave == []
      modifies `clocks, `wave, `emitted, `incomplete
      ensures var first := ev + (if l.hasTS then 1 else 0);
              var samples := if l.hasTrace then Samples(l, buf[first..first + l.numSamples / 2]) else [];
              State() == Deliver(boards,
                old(State()).(incomplete := old(incomplete) + (if !l.hasTS || LastWords(l) == 0 then 1 else 0)),
                e.(wave := samples))
    {
      hide Samples, UnwrappedTime, Ticked, TimePs;
      if !l.hasTS || !(l.hasEnergy || l.hasCharge) {
        incomplete := incomplete + 1;
      }
      var timePs := 0;
      if l.hasTS {
        timePs := SetTime(e.timestamp, e.board, e.width, e.fineTS, e.fineBits);
      }
      var samples: seq<nat> := [];
      if l.hasTrace {
        var n := UnpackWave(buf, l, ev + (if l.hasTS then 1 else 0), start, end);
        samples := wave[..n];
      }
      emitted := emitted + [AtTime(e.(wave := samples), timePs)];
    }

    /** The event loop of a couple; every read lies in buf[base..base + len]. */
    method Events(buf: seq<Word>, board: nat, couple: nat, l: DataLayout, base: nat, len: nat)
      requires Valid() && board in boards && LayoutConsistent(boards[board].kind, l)
      requires couple < 8 && l.evtSize > 0 && base + len <= |buf|
      modifies `clocks, `wave, `emitted, `incomplete
      ensures State() == Advance(boards, old(State()), EventsOf(boards[board].kind, l, board, couple, buf[base..base + len]))
    {
      hide ParseEvent, EventCount, EventsOf, Advance, Deliver;
      ghost var k := boards[board].kind;
      var nEvents := EventCount(len, l.evtSize);
      ghost var end := base + len;
      var evt, ev := 0, base;
      while evt < nEvents
        invariant 0 <= evt <= nEvents && base <= ev <= end
        invariant EventCount(end - ev, l.evtSize) == nEvents - evt
        invariant Valid()
        invariant Advance(boards, State(), EventsOf(k, l, board, couple, buf[ev..end])) ==
                  Advance(boards, old(State()), EventsOf(k, l, board, couple, buf[base..end]))
      {
        EventCountStep(end - ev, l.evtSize);
        FirstEventDelivered(boards, State(), k, l, board, couple, buf, ev, end);
        var e: RawEvent;
        if boards[board].kind.pha {
          e := ReadPHA(buf, board, couple, boards[board].kind, l, ev, base, end);
        } else {
          e := ReadPSD(buf, board, couple, boards[board].kind, l, ev, base, end);
        }
        EventInPlace(k, l, board, couple, buf, ev);
        Emit(buf, l, ev, e, base, end);
        evt, ev := evt + 1, ev + l.evtSize;
      }
      NoEvents(boards, State(), k, l, board, couple, buf[ev..end]);
    }

    /** The couples announced in the second header word. */
    method CoupleList(w: Word) returns (couples: seq<nat>)
      ensures couples == Couples(w)
    {
      hide Bit;
      couples := [];
      var b := 0;
      while b < MAX_COUPLES
        invariant 0 <= b <= MAX_COUPLES
        invariant couples == CouplesBelow(w, b)
      {
        if Bit(w, b) {
          couples := couples + [b];
        }
        b := b + 1;
      }
    }

    /** Looks for a word that a working board never sends; stops at the first. */
    method FindInvalid(buf: seq<Word>, l: DataLayout, base: nat, len: nat) returns (invalid: bool)
      requires l.evtSize > 0 && base + len <= |buf|
      ensures invalid == Condemned(l, buf[base..base + len])
    {
      hide AnyBit, EventCount, Condemned;
      var nEvents := EventCount(len, l.evtSize);
      ghost var end := base + len;
      invalid := false;
      var evt, ev := 0, base;
      while evt < nEvents && !invalid
        invariant 0 <= evt <= nEvents && base <= ev <= end
        invariant !invalid ==> EventCount(end - ev, l.evtSize) == nEvents - evt
        invariant Condemned(l, buf[base..end]) == (invalid || Condemned(l, buf[ev..end]))
      {
        EventCountStep(end - ev, l.evtSize);
        CondemnedStep(l, buf, ev, end);
        invalid := AnyBit(WordAt(buf, base, end, ev), l.resTS) || AnyBit(WordAt(buf, base, end, ev + l.evtSize - 1), l.resEnergy);
        evt, ev := evt + 1, ev + l.evtSize;
      }
      if !invalid {
        EventCountStep(end - ev, l.evtSize);
        CondemnedStep(l, buf, ev, end);
      }
    }

    /** One PHA couple: condemned as a whole by a single impossible word, else decoded. */
    method CouplePHA(buf: seq<Word>, board: nat, couple: nat, l: DataLayout, pos: nat, coupleSize: nat)
      requires Valid() && board in boards && boards[board].kind.pha && couple < 8
      requires 2 <= coupleSize && pos + coupleSize <= |buf|
      requires l == Resolve(boards[board].kind, buf[pos + 1]) && l.evtSize > 0
      modifies `clocks, `wave, `emitted, `uninitialised, `uninitialisedEvents, `incomplete
      ensures State() == Advance(boards, old(State()),
                ParseCouple(boards[board].kind, board, couple, buf[pos..pos + coupleSize]))
    {
      hide ExtractBits, Resolve, ParseEvents, ParseCouple, Condemned, EventCount, Advance, LayoutConsistent;
      CoupleCases(boards[board].kind, board, couple, buf, pos, coupleSize);
      var base, len := pos + 2, coupleSize - 2;
      var nEvents := EventCount(len, l.evtSize);
      var invalid := false;
      if l.resTS != [] || l.resEnergy != [] {
        invalid := FindInvalid(buf, l, base, len);
      }
      if invalid {
        AdvanceCondemned(boards, State(), nEvents);
        uninitialised := uninitialised + 1;
        uninitialisedEvents := uninitialisedEvents + nEvents;
      } else {
        Events(buf, board, couple, l, base, len);
      }
    }

    /** The two header words of a couple: its size and, through the board's frame, its layout. */
    method CoupleHeader(buf: seq<Word>, board: nat, offset: nat, aggEnd: nat, pos: nat)
      returns (fits: bool, coupleSize: nat, l: DataLayout)
      requires Valid() && board in boards && offset <= pos && pos + 2 <= aggEnd <= |buf|
      modifies `frames
      ensures Valid()
      ensures coupleSize == ExtractBits(buf[pos], SizeFormat(boards[board].kind)) && l == Resolve(boards[board].kind, buf[pos + 1])
      ensures fits <==> 2 <= coupleSize && pos + coupleSize <= aggEnd && l.evtSize > 0
    {
      hide ExtractBits, Resolve;
      coupleSize := ExtractBits(WordAt(buf, offset, aggEnd, pos), SizeFormat(boards[board].kind));
      var frame := SetDataFormat(frames[board], WordAt(buf, offset, aggEnd, pos + 1));
      frames := frames[board := frame];
      l := frame.layout;
      fits := !(coupleSize < 2 || pos + coupleSize > aggEnd || l.evtSize == 0);
    }

    /** One PSD couple. */
    method CouplePSD(buf: seq<Word>, board: nat, couple: nat, l: DataLayout, pos: nat, coupleSize: nat)
      requires Valid() && board in boards && !boards[board].kind.pha && couple < 8
      requires 2 <= coupleSize && pos + coupleSize <= |buf|
      requires l == Resolve(boards[board].kind, buf[pos + 1]) && l.evtSize > 0
      modifies `clocks, `wave, `emitted, `incomplete
      ensures State() == Advance(boards, old(State()),
                ParseCouple(boards[board].kind, board, couple, buf[pos..pos + coupleSize]))
    {
      hide ExtractBits, Resolve, ParseEvents, ParseCouple, Condemned, EventCount, Advance, LayoutConsistent, EventsOf;
      CoupleCases(boards[board].kind, board, couple, buf, pos, coupleSize);
      Events(buf, board, couple, l, pos + 2, coupleSize - 2);
    }

    /** The couples of a PHA aggregate. Every read lies in its body, and every event of a couple in that
        couple: the specification sees only those words. */
    method DecodePHA(buf: seq<Word>, board: nat, offset: nat, aggLen: nat)
      requires Valid() && board in boards && boards[board].kind.pha
      requires AGG_HEADER_WORDS <= aggLen && offset + aggLen <= |buf| < 0x8000_0000
      modifies `frames, `clocks, `wave, `emitted, `corrupt, `uninitialised, `uninitialisedEvents, `incomplete
      ensures Valid()
      ensures State() == Advance(boards, old(State()),
                ParseCouples(boards[board].kind, board, Couples(buf[offset + 1]),
                             buf[offset + AGG_HEADER_WORDS..offset + aggLen]))
    {
      hide ExtractBits, Resolve, ParseEvents, ParseCouple, ParseCouples, Couples, Condemned, EventCount, Advance, Join, LayoutConsistent, Marker;
      ghost var k := boards[board].kind;
      var aggEnd := offset + aggLen;
      var couples := CoupleList(WordAt(buf, offset, aggEnd, offset + 1));
      var pos := offset + AGG_HEADER_WORDS;
      ghost var whole := Advance(boards, State(), ParseCouples(k, board, couples, buf[pos..aggEnd]));
      var cpl := 0;
      assert couples[0..] == couples;
      while cpl < |couples|
        invariant 0 <= cpl <= |couples| && offset + AGG_HEADER_WORDS <= pos <= aggEnd
        invariant Valid()
        invariant Advance(boards, State(), ParseCouples(k, board, couples[cpl..], buf[pos..aggEnd])) == whole
      {
        AdvanceCorrupt(boards, State());
        CouplesCases(k, board, couples, cpl, buf, pos, aggEnd);
        if pos + 2 > aggEnd {
          corrupt := corrupt + 1;
          return;
        }
        var fits, coupleSize, l := CoupleHeader(buf, board, offset, aggEnd, pos);
        if !fits {
          corrupt := corrupt + 1;
          return;
        }
        AdvanceJoin(boards, State(), ParseCouple(k, board, couples[cpl], buf[pos..pos + coupleSize]),
                    ParseCouples(k, board, couples[cpl + 1..], buf[pos + coupleSize..aggEnd]));
        CouplePHA(buf, board, couples[cpl], l, pos, coupleSize);
        pos := pos + coupleSize;
        cpl := cpl + 1;
      }
      AdvanceNothing(boards, State());
      CouplesDone(k, board, couples[cpl..], buf[pos..aggEnd]);
    }

    /** The couples of a PSD aggregate; no reserved bits are known for these families. */
    method DecodePSD(buf: seq<Word>, board: nat, offset: nat, aggLen: nat)
      requires Valid() && board in boards && !boards[board].kind.pha
      requires AGG_HEADER_WORDS <= aggLen && offset + aggLen <= |buf| < 0x8000_0000
      modifies `frames, `clocks, `wave, `emitted, `corrupt, `incomplete
      ensures Valid()
      ensures State() == Advance(boards, old(State()),
                ParseCouples(boards[board].kind, board, Couples(buf[offset + 1]),
                             buf[offset + AGG_HEADER_WORDS..offset + aggLen]))
    {
      hide ExtractBits, Resolve, ParseEvents, ParseCouple, ParseCouples, Couples, Condemned, EventCount, Advance, Join, LayoutConsistent, Marker;
      ghost var k := boards[board].kind;
      var aggEnd := offset + aggLen;
      var couples := CoupleList(WordAt(buf, offset, aggEnd, offset + 1));
      var pos := offset + AGG_HEADER_WORDS;
      ghost var whole := Advance(boards, State(), ParseCouples(k, board, couples, buf[pos..aggEnd]));
      var cpl := 0;
      assert couples[0..] == couples;
      while cpl < |couples|
        invariant 0 <= cpl <= |couples| && offset + AGG_HEADER_WORDS <= pos <= aggEnd
        invariant Valid()
        invariant Advance(boards, State(), ParseCouples(k, board, couples[cpl..], buf[pos..aggEnd])) == whole
      {
        AdvanceCorrupt(boards, State());
        CouplesCases(k, board, couples, cpl, buf, pos, aggEnd);
        if pos + 2 > aggEnd {
          corrupt := corrupt + 1;
          return;
        }
        var fits, coupleSize, l := CoupleHeader(buf, board, offset, aggEnd, pos);
        if !fits {
          corrupt := corrupt + 1;
          return;
        }
        AdvanceJoin(boards, State(), ParseCouple(k, board, couples[cpl], buf[pos..pos + coupleSize]),
                    ParseCouples(k, board, couples[cpl + 1..], buf[pos + coupleSize..aggEnd]));
        CouplePSD(buf, board, couples[cpl], l, pos, coupleSize);
        pos := pos + coupleSize;
        cpl := cpl + 1;
      }
      AdvanceNothing(boards, State());
      CouplesDone(k, board, couples[cpl..], buf[pos..aggEnd]);
    }

    /** Decodes a buffer: the decoder advances by exactly what the buffer says, and the number of events
        handed to the callback is returned. The offset grows on every branch, so the walk ends. */
    method Decode(buf: seq<Word>) returns (count: nat)
      requires Valid() && |buf| < 0x8000_0000
      modifies `frames, `clocks, `wave, `emitted, `corrupt, `boardFail, `uninitialised, `uninitialisedEvents, `incomplete
      ensures Valid()
      ensures State() == Advance(boards, old(State()), ParseBuffer(boards, buf))
      ensures count == |ParseBuffer(boards, buf).events|
      ensures |emitted| == |old(emitted)| + count && emitted[..|old(emitted)|] == old(emitted)
      ensures var p := ParseBuffer(boards, buf);
              && (forall i :: 0 <= i < count ==> SameFields(emitted[|old(emitted)| + i], p.events[i]))
              && corrupt == old(corrupt) + p.corrupt && boardFail == old(boardFail) + p.boardFail
              && uninitialised == old(uninitialised) + p.uninitialised
              && uninitialisedEvents == old(uninitialisedEvents) + p.uninitialisedEvents
              && incomplete == old(incomplete) + p.incomplete
    {
      hide ExtractBits, ParseCouples, ParseAggregate, ParseBuffer, Advance, Join, Supported, SameFields;
      var nwords, before := |buf|, |emitted|;
      ghost var whole := Advance(boards, State(), ParseBuffer(boards, buf));
      var offset := 0;
      assert buf[0..] == buf;
      while offset + AGG_HEADER_WORDS <= nwords
        invariant 0 <= offset <= nwords && Valid()
        invariant Advance(boards, State(), ParseBuffer(boards, buf[offset..])) == whole
        decreases nwords - offset
      {
        BufferCases(boards, buf, offset);
        if !Marker(buf[offset]) {
          offset := offset + 1;
          continue;
        }
        var aggLen := AggLength(buf[offset]);
        if aggLen < AGG_HEADER_WORDS {
          AdvanceJoin(boards, State(), CORRUPT, ParseBuffer(boards, buf[offset + 1..]));
          AdvanceCorrupt(boards, State());
          offset := offset + 1;
          corrupt := corrupt + 1;
          continue;
        }
        assert offset + aggLen < TWO32;  // the 32-bit sum does not wrap
        if offset + aggLen > nwords {
          break;
        }
        ghost var agg := buf[offset..offset + aggLen];
        assert agg[1] == buf[offset + 1] && agg[AGG_HEADER_WORDS..] == buf[offset + AGG_HEADER_WORDS..offset + aggLen];
        AdvanceJoin(boards, State(), ParseAggregate(boards, agg), ParseBuffer(boards, buf[offset + aggLen..]));
        var header := WordAt(buf, offset, offset + aggLen, offset + 1);
        var board := ExtractBits(header, BITS_27_31);
        AggregateStep(boards, State(), agg);
        if Bit(header, BIT_26) {
          boardFail := boardFail + 1;
        }
        if board in boards && Supported(boards[board].kind) {
          if boards[board].kind.pha {
            DecodePHA(buf, board, offset, aggLen);
          } else {
            DecodePSD(buf, board, offset, aggLen);
          }
        }
        offset := offset + aggLen;
      }
      AdvanceNothing(boards, State());
      BufferCases(boards, buf, offset);
      DeliveredCount(boards, old(State()), ParseBuffer(boards, buf));
      AdvanceCounts(boards, old(State()), ParseBuffer(boards, buf));
      count := |emitted| - before;
    }
  }

  /** The fine part may be added before or after the product is read as signed. */
  lemma TimeInSteps(ticks: nat, psPerTick: nat, fineTS: nat, fineBits: nat)
    ensures TimePs(ticks, psPerTick, fineTS, fineBits) ==
            var ps := I64(U64(ticks * psPerTick));
            if fineBits > 0 then I64(U64(ps + Shr(fineTS * psPerTick, fineBits))) else ps
  {
    hide I64, Shr;
    SignedSum(U64(ticks * psPerTick), FineAdded(psPerTick, fineTS, fineBits));
  }

  lemma FreshFrame(k: FrameKind)
    ensures NewFrame(k).kind == k && FrameValid(NewFrame(k))
  {
  }

  /** Nothing already delivered is touched, and every parsed event is delivered. */
  lemma DeliveredCount(boards: map<nat, BoardCfg>, s: DecState, p: Parsed)
    ensures var out := Advance(boards, s, p).events;
            && |out| == |s.events| + |p.events| && out[..|s.events|] == s.events
            && forall i :: 0 <= i < |p.events| ==> SameFields(out[|s.events| + i], p.events[i])
  {
    DeliveredEvents(boards, Count(s, p), p.events);
  }

  lemma AdvanceNothing(boards: map<nat, BoardCfg>, s: DecState)
    ensures Advance(boards, s, NOTHING) == s
  {
  }

  lemma AdvanceCorrupt(boards: map<nat, BoardCfg>, s: DecState)
    ensures Advance(boards, s, CORRUPT) == s.(corrupt := s.corrupt + 1)
  {
  }

  lemma AdvanceFail(boards: map<nat, BoardCfg>, s: DecState, n: nat)
    ensures Advance(boards, s, NOTHING.(boardFail := n)) == s.(boardFail := s.boardFail + n)
  {
  }

  lemma AdvanceCondemned(boards: map<nat, BoardCfg>, s: DecState, n: nat)
    ensures Advance(boards, s, Parsed([], 0, 0, 1, n, 0)) ==
            s.(uninitialised := s.uninitialised + 1, uninitialisedEvents := s.uninitialisedEvents + n)
  {
  }

  /** The walk at `offset`: past the end, resynchronising, partial, or a whole aggregate. */
  lemma BufferCases(boards: map<nat, BoardCfg>, buf: seq<Word>, offset: nat)
    requires offset <= |buf|
    ensures var all := ParseBuffer(boards, buf[offset..]);
            if offset + AGG_HEADER_WORDS > |buf| then all == NOTHING
            else if !Marker(buf[offset]) then all == ParseBuffer(boards, buf[offset + 1..])
            else
              var n := AggLength(buf[offset]);
              if n < AGG_HEADER_WORDS then all == Join(CORRUPT, ParseBuffer(boards, buf[offset + 1..]))
              else if offset + n > |buf| then all == NOTHING
              else all == Join(ParseAggregate(boards, buf[offset..offset + n]), ParseBuffer(boards, buf[offset + n..]))
  {
    hide ExtractBits, ParseAggregate;
    var rest := buf[offset..];
    if offset + AGG_HEADER_WORDS <= |buf| {
      assert rest[0] == buf[offset] && rest[1..] == buf[offset + 1..];
      var n := AggLength(buf[offset]);
      if AGG_HEADER_WORDS <= n && offset + n <= |buf| {
        assert rest[..n] == buf[offset..offset + n] && rest[n..] == buf[offset + n..];
      }
    }
  }

  lemma CouplesDone(k: FrameKind, board: nat, couples: seq<nat>, body: seq<Word>)
    requires couples == []
    ensures ParseCouples(k, board, couples, body) == NOTHING
  {
  }

  /** The couple at `pos` is stepped over, or ends the aggregate. */
  lemma CouplesCases(k: FrameKind, board: nat, couples: seq<nat>, cpl: nat, buf: seq<Word>, pos: nat, aggEnd: nat)
    requires cpl < |couples| && pos <= aggEnd <= |buf|
    ensures var all := ParseCouples(k, board, couples[cpl..], buf[pos..aggEnd]);
            if pos + 2 > aggEnd then all == CORRUPT
            else
              var size := ExtractBits(buf[pos], SizeFormat(k));
              if size < 2 || pos + size > aggEnd || Resolve(k, buf[pos + 1]).evtSize == 0 then all == CORRUPT
              else all == Join(ParseCouple(k, board, couples[cpl], buf[pos..pos + size]),
                               ParseCouples(k, board, couples[cpl + 1..], buf[pos + size..aggEnd]))
  {
    hide ExtractBits, Resolve, ParseCouple;
    var body := buf[pos..aggEnd];
    assert couples[cpl..][1..] == couples[cpl + 1..];
    if pos + 2 <= aggEnd {
      assert body[0] == buf[pos] && body[1] == buf[pos + 1];
      var size := ExtractBits(buf[pos], SizeFormat(k));
      if 2 <= size && pos + size <= aggEnd {
        assert body[..size] == buf[pos..pos + size] && body[size..] == buf[pos + size..aggEnd];
      }
    }
  }

  /** What a couple says, in terms of the buffer it lies in. */
  lemma CoupleCases(k: FrameKind, board: nat, couple: nat, buf: seq<Word>, pos: nat, size: nat)
    requires 2 <= size && pos + size <= |buf| && Resolve(k, buf[pos + 1]).evtSize > 0
    ensures var l := Resolve(k, buf[pos + 1]);
            var payload := buf[pos + 2..pos + size];
            && LayoutConsistent(k, l)
            && ParseCouple(k, board, couple, buf[pos..pos + size]) ==
               if Checked(k, l) && Condemned(l, payload) then Parsed([], 0, 0, 1, EventCount(|payload|, l.evtSize), 0)
               else EventsOf(k, l, board, couple, payload)
    ensures !k.pha ==> !Checked(k, Resolve(k, buf[pos + 1]))
  {
    hide Resolve, LayoutConsistent, Condemned, ParseEvents, EventCount;
    ResolveConsistent(k, buf[pos + 1]);
    var w := buf[pos..pos + size];
    assert w[1] == buf[pos + 1] && w[2..] == buf[pos + 2..pos + size];
  }

  /** An aggregate: the fail bit is counted, then the couples follow if the board is known. */
  lemma AggregateStep(boards: map<nat, BoardCfg>, s: DecState, agg: seq<Word>)
    requires |agg| >= AGG_HEADER_WORDS
    ensures var s' := s.(boardFail := s.boardFail + FailCount(agg[1]));
            var board := BoardOf(agg);
            Advance(boards, s, ParseAggregate(boards, agg)) ==
            if board in boards && Supported(boards[board].kind)
            then Advance(boards, s', ParseCouples(boards[board].kind, board, Couples(agg[1]), agg[AGG_HEADER_WORDS..]))
            else s'
  {
    hide ParseCouples, Couples, Supported, ExtractBits, FailCount, Advance, Join;
    var n := FailCount(agg[1]);
    var fail := NOTHING.(boardFail := n);
    var board := BoardOf(agg);
    AdvanceFail(boards, s, n);
    if board in boards && Supported(boards[board].kind) {
      AdvanceJoin(boards, s, fail, ParseCouples(boards[board].kind, board, Couples(agg[1]), agg[AGG_HEADER_WORDS..]));
    } else {
      JoinNothing(fail);
    }
  }

  lemma SamplesOfNone(l: DataLayout, ws: seq<Word>)
    requires ws == []
    ensures Samples(l, ws) == []
  {
  }

  lemma SubSlice(buf: seq<Word>, a: nat, n: nat, b: nat, m: nat)
    requires a + n <= |buf| && b + m <= n
    ensures buf[a..a + n][b..b + m] == buf[a + b..a + b + m]
  {
    var outer, inner := buf[a..a + n], buf[a + b..a + b + m];
    forall i | 0 <= i < m
      ensures outer[b..b + m][i] == inner[i]
    {
      assert outer[b + i] == buf[a + b + i];
    }
  }

  lemma SamplesAppend(l: DataLayout, ws: seq<Word>, w: Word)
    ensures Samples(l, ws + [w]) == Samples(l, ws) +
            (if l.dualTrace then [ExtractBits(w, l.fmtSample)]
             else [ExtractBits(w, l.fmtSample), ExtractBits(w, HighHalf(l.fmtSample))])
  {
    hide ExtractBits;
    var more := ws + [w];
    var out, was := Samples(l, more), Samples(l, ws);
    forall i | 0 <= i < |was|
      ensures out[i] == was[i]
    {
      assert more[if l.dualTrace then i else i / 2] == ws[if l.dualTrace then i else i / 2];
    }
    assert out[..|was|] == was && out == out[..|was|] + out[|was|..];
  }

  /** One more word of trace adds its one or two samples. */
  lemma SamplesGrow(l: DataLayout, buf: seq<Word>, first: nat, n: nat)
    requires first + n < |buf|
    ensures var w := buf[first + n];
            Samples(l, buf[first..first + n + 1]) == Samples(l, buf[first..first + n]) +
            (if l.dualTrace then [ExtractBits(w, l.fmtSample)]
             else [ExtractBits(w, l.fmtSample), ExtractBits(w, HighHalf(l.fmtSample))])
  {
    hide ExtractBits, Samples;
    SamplesAppend(l, buf[first..first + n], buf[first + n]);
    assert buf[first..first + n + 1] == buf[first..first + n] + [buf[first + n]];
  }

  lemma PutOne(s: seq<nat>, i: nat, a: nat)
    requires i < |s|
    ensures s[i := a][..i + 1] == s[..i] + [a]
  {
  }

  lemma PutTwo(s: seq<nat>, i: nat, a: nat, b: nat)
    requires i + 1 < |s|
    ensures s[i := a][i + 1 := b][..i + 2] == s[..i] + [a, b]
  {
  }

  /** An event is its fields and its trace, which lies where the index arithmetic puts it. */
  lemma EventInPlace(k: FrameKind, l: DataLayout, board: nat, couple: nat, buf: seq<Word>, ev: nat)
    requires LayoutConsistent(k, l) && ev + l.evtSize <= |buf|
    ensures var e := ParseEvent(k, l, board, couple, buf[ev..ev + l.evtSize]);
            var first := ev + (if l.hasTS then 1 else 0);
            && e.board == board && e.timed == l.hasTS
            && (l.hasTrace ==> first + l.numSamples / 2 <= ev + l.evtSize)
            && e == e.(wave := []).(wave := if l.hasTrace then Samples(l, buf[first..first + l.numSamples / 2]) else [])
  {
    hide ExtractBits, Bit, ExtrasOf, Samples;
    if l.hasTrace {
      SubSlice(buf, ev, l.evtSize, if l.hasTS then 1 else 0, l.numSamples / 2);
    }
  }

  /** No words, no events. */
  lemma NoEvents(boards: map<nat, BoardCfg>, s: DecState, k: FrameKind, l: DataLayout, board: nat, couple: nat, rest: seq<Word>)
    requires LayoutConsistent(k, l) && l.evtSize > 0 && EventCount(|rest|, l.evtSize) == 0
    ensures Advance(boards, s, EventsOf(k, l, board, couple, rest)) == s
  {
    EventCountStep(|rest|, l.evtSize);
    assert EventsOf(k, l, board, couple, rest) == NOTHING;
  }

  /** Eight couples of two channels, or eight channels: no event names a channel past the last. */
  lemma ChannelBelowMax(l: DataLayout, couple: nat, timeWord: Word)
    requires couple < 8
    ensures ChannelOf(l, couple, timeWord) < MAX_CHANNELS
  {
    FieldTable(timeWord);
  }
}
