/** The ranges that every decoded event keeps, whatever words it was decoded from. */
module EventRanges {
  import opened Words
  import opened DataFrames
  import opened Parsing
  import opened Stamping
  import opened Decoder
  import opened DecodingLaws

  /** An event whose fields stay within the widths they are stored in. */
  predicate InRange(e: RawEvent) {
    && e.board < 32 && e.channel < MAX_CHANNELS
    && e.energy < 0x8000 && e.qshort < 0x8000 && e.qlong < 0x1_0000
    && |e.wave| < 0x1_0000
  }

  predicate AllInRange(evs: seq<RawEvent>) {
    forall i :: 0 <= i < |evs| ==> InRange(evs[i])
  }

  /** Whatever the words, only events within range come out of a buffer: 32 boards, 16 channels, 15-bit
      energies and short charges, 16-bit long charges, fewer than 65536 samples. */
  lemma {:induction false} EventsInRange(boards: map<nat, BoardCfg>, w: seq<Word>)
    ensures AllInRange(ParseBuffer(boards, w).events)
    decreases |w|
  {
    hide ParseAggregate, Marker, AggLength;
    if |w| >= AGG_HEADER_WORDS {
      if !Marker(w[0]) {
        EventsInRange(boards, w[1..]);
      } else {
        var n := AggLength(w[0]);
        if n < AGG_HEADER_WORDS {
          EventsInRange(boards, w[1..]);
        } else if n <= |w| {
          AggregateInRange(boards, w[..n]);
          EventsInRange(boards, w[n..]);
        }
      }
    }
  }

  lemma AggregateInRange(boards: map<nat, BoardCfg>, agg: seq<Word>)
    requires |agg| >= AGG_HEADER_WORDS
    ensures AllInRange(ParseAggregate(boards, agg).events)
  {
    hide ParseCouples, Couples, ExtractBits, FailCount, Supported;
    var board := BoardOf(agg);
    FieldTable(agg[1]);
    if board in boards {
      CouplesInRange(boards[board].kind, board, Couples(agg[1]), agg[AGG_HEADER_WORDS..]);
    }
  }

  lemma {:induction false} CouplesInRange(k: FrameKind, board: nat, couples: seq<nat>, body: seq<Word>)
    requires board < 32 && forall i :: 0 <= i < |couples| ==> couples[i] < MAX_COUPLES
    ensures AllInRange(ParseCouples(k, board, couples, body).events)
    decreases |couples|
  {
    hide ParseEvents, Condemned, Resolve, ExtractBits, EventCount, InRange;
    if couples != [] && CoupleFits(k, body) {
      var size := ExtractBits(body[0], SizeFormat(k));
      var l := Resolve(k, body[1]);
      ResolveConsistent(k, body[1]);
      PayloadInRange(k, l, board, couples[0], body[2..size]);
      assert body[..size][2..] == body[2..size] && body[..size][1] == body[1];
      CouplesInRange(k, board, couples[1..], body[size..]);
    }
  }

  lemma {:induction false} PayloadInRange(k: FrameKind, l: DataLayout, board: nat, couple: nat, payload: seq<Word>)
    requires LayoutConsistent(k, l) && l.evtSize > 0 && board < 32 && couple < MAX_COUPLES
    ensures AllInRange(ParseEvents(k, l, board, couple, payload))
    decreases |payload|
  {
    hide ParseEvent, LayoutConsistent, InRange;
    if |payload| >= l.evtSize {
      EventIsInRange(k, l, board, couple, payload[..l.evtSize]);
      PayloadInRange(k, l, board, couple, payload[l.evtSize..]);
    }
  }

  lemma EventIsInRange(k: FrameKind, l: DataLayout, board: nat, couple: nat, ev: seq<Word>)
    requires |ev| == l.evtSize && LayoutConsistent(k, l) && board < 32 && couple < MAX_COUPLES
    ensures InRange(ParseEvent(k, l, board, couple, ev))
  {
    hide ExtractBits, Bit, Extended, ExtrasOf, TraceOf, ChannelOf;
    ChannelBelowMax(l, couple, TimeWord(l, ev));
    FieldTable(LastWord(l, ev));
    TraceIsShort(k, l, ev);
  }

  lemma TraceIsShort(k: FrameKind, l: DataLayout, ev: seq<Word>)
    requires |ev| == l.evtSize && LayoutConsistent(k, l)
    ensures |TraceOf(k, l, ev)| < 0x1_0000
  {
    hide ExtractBits;
  }

  predicate DecodedInRange(e: DecodedEvent) {
    && e.board < 32 && e.channel < MAX_CHANNELS
    && e.energy < 0x8000 && e.qshort < 0x8000 && e.qlong < 0x1_0000
    && |e.wave| < 0x1_0000
  }

  /** The same of the events a decoder delivers for a buffer. */
  lemma DeliveredInRange(boards: map<nat, BoardCfg>, s: DecState, w: seq<Word>)
    ensures var out := Advance(boards, s, ParseBuffer(boards, w)).events;
            && s.events <= out
            && forall i :: |s.events| <= i < |out| ==> DecodedInRange(out[i])
  {
    hide ParseBuffer, DeliverAll;
    var p := ParseBuffer(boards, w);
    EventsInRange(boards, w);
    DeliveredEvents(boards, Count(s, p), p.events);
    var out := Advance(boards, s, p).events;
    forall i | |s.events| <= i < |out|
      ensures DecodedInRange(out[i])
    {
      var k := i - |s.events|;
      assert out[|s.events| + k] == AtTime(p.events[k], out[|s.events| + k].timePs);
      assert InRange(p.events[k]);
    }
  }
}
