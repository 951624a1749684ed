/** What decoding keeps over whole streams: cutting a stream, corrupting an aggregate, interleaving
    boards, and the accounting of events. */
module DecodingLaws {
  import opened Words
  import opened Arithmetic
  import opened Clocks
  import opened DataFrames
  import opened Parsing
  import opened Stamping
  import opened Decoder

  // ----- cutting a stream -----

  /** Cutting a stream anywhere: the second part picks up what the first left unread. */
  lemma {:induction false} CutAnywhere(boards: map<nat, BoardCfg>, x: seq<Word>, y: seq<Word>)
    ensures ParseBuffer(boards, x + y) == Join(ParseBuffer(boards, x), ParseBuffer(boards, Unread(x) + y))
    decreases |x|
  {
    hide ParseAggregate, Marker, AggLength, Join;
    var here := ParseBuffer(boards, Unread(x) + y);
    JoinNothing(here);
    if |x| >= AGG_HEADER_WORDS {
      assert (x + y)[0] == x[0] && (x + y)[1..] == x[1..] + y;
      var n := AggLength(x[0]);
      if !Marker(x[0]) {
        CutAnywhere(boards, x[1..], y);
      } else if n < AGG_HEADER_WORDS {
        CutAnywhere(boards, x[1..], y);
        JoinAssociates(CORRUPT, ParseBuffer(boards, x[1..]), here);
      } else if n <= |x| {
        assert (x + y)[..n] == x[..n] && (x + y)[n..] == x[n..] + y;
        CutAnywhere(boards, x[n..], y);
        JoinAssociates(ParseAggregate(boards, x[..n]), ParseBuffer(boards, x[n..]), here);
      }
    }
  }

  /** Words that are no marker are walked over without a trace. */
  lemma {:induction false} GarbageIsSkipped(boards: map<nat, BoardCfg>, garbage: seq<Word>, y: seq<Word>)
    requires forall i :: 0 <= i < |garbage| ==> !Marker(garbage[i])
    ensures ParseBuffer(boards, garbage + y) == ParseBuffer(boards, y)
    decreases |garbage|
  {
    hide ParseAggregate, Marker, AggLength;
    if garbage == [] {
      assert garbage + y == y;
    } else {
      var w := garbage + y;
      assert w[0] == garbage[0] && w[1..] == garbage[1..] + y;
      GarbageIsSkipped(boards, garbage[1..], y);
      if |w| < AGG_HEADER_WORDS {
        ShortIsNothing(boards, garbage[1..] + y);
      }
    }
  }

  lemma ShortIsNothing(boards: map<nat, BoardCfg>, w: seq<Word>)
    requires |w| < AGG_HEADER_WORDS
    ensures ParseBuffer(boards, w) == NOTHING
  {
  }

  /** The first part holds whole aggregates, possibly with garbage around them. */
  predicate CutBetweenAggregates(x: seq<Word>) {
    forall i :: 0 <= i < |Unread(x)| ==> !Marker(Unread(x)[i])
  }

  /** Decoding is a homomorphism on whole aggregates: one buffer or two makes no difference, in events,
      clocks or counters. */
  lemma DecodeInParts(boards: map<nat, BoardCfg>, s: DecState, x: seq<Word>, y: seq<Word>)
    requires CutBetweenAggregates(x)
    ensures Advance(boards, s, ParseBuffer(boards, x + y)) ==
            Advance(boards, Advance(boards, s, ParseBuffer(boards, x)), ParseBuffer(boards, y))
  {
    CutAnywhere(boards, x, y);
    GarbageIsSkipped(boards, Unread(x), y);
    AdvanceJoin(boards, s, ParseBuffer(boards, x), ParseBuffer(boards, y));
  }

  /** Decoding buffers one after the other. */
  function AfterBuffers(boards: map<nat, BoardCfg>, s: DecState, bufs: seq<seq<Word>>): DecState
    decreases |bufs|
  {
    if bufs == [] then s else AfterBuffers(boards, Advance(boards, s, ParseBuffer(boards, bufs[0])), bufs[1..])
  }

  lemma {:induction false} OneMoreBuffer(boards: map<nat, BoardCfg>, s: DecState, bufs: seq<seq<Word>>, buf: seq<Word>)
    ensures AfterBuffers(boards, s, bufs + [buf]) == Advance(boards, AfterBuffers(boards, s, bufs), ParseBuffer(boards, buf))
    decreases |bufs|
  {
    hide Advance, ParseBuffer;
    if bufs == [] {
      assert [buf][1..] == [] && bufs + [buf] == [buf];
    } else {
      assert (bufs + [buf])[1..] == bufs[1..] + [buf];
      OneMoreBuffer(boards, Advance(boards, s, ParseBuffer(boards, bufs[0])), bufs[1..], buf);
    }
  }

  /** The condition is needed: an aggregate cut in two is lost, here one whose fail bit is set. */
  lemma CutAggregateIsLost(boards: map<nat, BoardCfg>, x: seq<Word>, y: seq<Word>)
    requires 0 !in boards && x == [0xA000_0004] && y == [0x400_0000, 0, 0]
    ensures ParseBuffer(boards, x + y).boardFail == 1
    ensures Join(ParseBuffer(boards, x), ParseBuffer(boards, y)).boardFail == 0
  {
    hide ExtractBits, Bit, ParseAggregate;
    var w := x + y;
    FieldTable(w[0]);
    AggregateFirst(boards, w, []);
    assert w + [] == w;
    FailBitCounts(boards, w);
    ShortIsNothing(boards, []);
    ShortIsNothing(boards, y);
    ShortIsNothing(boards, x);
  }

  /** The aggregate of a board that is not registered, or of no known family, only counts its fail bit. */
  lemma UnknownBoard(boards: map<nat, BoardCfg>, a: seq<Word>)
    requires |a| >= AGG_HEADER_WORDS && (BoardOf(a) !in boards || !Supported(boards[BoardOf(a)].kind))
    ensures ParseAggregate(boards, a) == NOTHING.(boardFail := FailCount(a[1]))
  {
    hide FailCount, BoardOf;
    JoinNothing(NOTHING.(boardFail := FailCount(a[1])));
  }

  lemma FailBitCounts(boards: map<nat, BoardCfg>, a: seq<Word>)
    requires |a| >= AGG_HEADER_WORDS && a[1] == 0x400_0000 && 0 !in boards
    ensures ParseAggregate(boards, a).boardFail == 1
  {
    hide Bit, ExtractBits, ParseAggregate;
    var w := a[1];
    BitTable(w);
    FieldTable(w);
    UnknownBoard(boards, a);
  }

  // ----- one corrupted aggregate -----

  /** Exactly the words of one aggregate. */
  predicate WholeAggregate(a: seq<Word>) {
    |a| >= AGG_HEADER_WORDS && Marker(a[0]) && AggLength(a[0]) == |a|
  }

  lemma AggregateFirst(boards: map<nat, BoardCfg>, a: seq<Word>, rest: seq<Word>)
    requires WholeAggregate(a)
    ensures ParseBuffer(boards, a + rest) == Join(ParseAggregate(boards, a), ParseBuffer(boards, rest))
    ensures Unread(a + rest) == Unread(rest)
  {
    hide ParseAggregate;
    assert (a + rest)[..|a|] == a && (a + rest)[|a|..] == rest;
  }

  lemma AroundAggregate(boards: map<nat, BoardCfg>, pre: seq<Word>, a: seq<Word>, post: seq<Word>)
    requires CutBetweenAggregates(pre) && WholeAggregate(a)
    ensures ParseBuffer(boards, pre + a + post) ==
            Join(ParseBuffer(boards, pre), Join(ParseAggregate(boards, a), ParseBuffer(boards, post)))
  {
    assert pre + a + post == pre + (a + post);
    CutAnywhere(boards, pre, a + post);
    GarbageIsSkipped(boards, Unread(pre), a + post);
    AggregateFirst(boards, a, post);
  }

  function Tail(out: seq<DecodedEvent>, n: nat): seq<DecodedEvent> {
    if n <= |out| then out[|out| - n..] else out
  }

  /** The same events in every field except possibly the time. */
  predicate SameButTime(a: seq<DecodedEvent>, b: seq<DecodedEvent>) {
    |a| == |b| && forall i :: 0 <= i < |a| ==> a[i] == b[i].(timePs := a[i].timePs)
  }

  /** Whatever an aggregate of valid length carries instead of its payload, the events before it are
      the same, and those after it keep every field except possibly their time. */
  lemma CorruptionIsContained(boards: map<nat, BoardCfg>, s: DecState,
                              pre: seq<Word>, a: seq<Word>, a': seq<Word>, post: seq<Word>)
    requires CutBetweenAggregates(pre) && WholeAggregate(a) && WholeAggregate(a')
    ensures var out := Advance(boards, s, ParseBuffer(boards, pre + a + post)).events;
            var out' := Advance(boards, s, ParseBuffer(boards, pre + a' + post)).events;
            var before := Advance(boards, s, ParseBuffer(boards, pre)).events;
            var n := |ParseBuffer(boards, post).events|;
            && before <= out && before <= out'
            && |Tail(out, n)| == n
            && SameButTime(Tail(out, n), Tail(out', n))
  {
    hide ParseBuffer, ParseAggregate, Advance, Marker, AggLength, CutBetweenAggregates, Join;
    AroundAggregate(boards, pre, a, post);
    AroundAggregate(boards, pre, a', post);
    var p, q := ParseBuffer(boards, pre), ParseBuffer(boards, post);
    TailKeepsFields(boards, s, p, ParseAggregate(boards, a), q);
    TailKeepsFields(boards, s, p, ParseAggregate(boards, a'), q);
    var out := Tail(Advance(boards, s, Join(p, Join(ParseAggregate(boards, a), q))).events, |q.events|);
    var out' := Tail(Advance(boards, s, Join(p, Join(ParseAggregate(boards, a'), q))).events, |q.events|);
    forall i | 0 <= i < |out|
      ensures out[i] == out'[i].(timePs := out[i].timePs)
    {
      assert out[i] == AtTime(q.events[i], out[i].timePs) && out'[i] == AtTime(q.events[i], out'[i].timePs);
    }
  }

  lemma TailKeepsFields(boards: map<nat, BoardCfg>, s: DecState, p: Parsed, a: Parsed, q: Parsed)
    ensures var out := Advance(boards, s, Join(p, Join(a, q))).events;
            var tail := Tail(out, |q.events|);
            && Advance(boards, s, p).events <= out
            && |tail| == |q.events|
            && forall i :: 0 <= i < |tail| ==> tail[i] == AtTime(q.events[i], tail[i].timePs)
  {
    AdvanceJoin(boards, s, p, Join(a, q));
    var s1 := Advance(boards, s, p);
    AdvanceJoin(boards, s1, a, q);
    var s2 := Advance(boards, s1, a);
    DeliveredCount(boards, s1, a);
    DeliveredEvents(boards, Count(s2, q), q.events);
    var out := Advance(boards, s2, q).events;
    assert out[..|s1.events|] == out[..|s2.events|][..|s1.events|];
    var tail := Tail(out, |q.events|);
    forall i | 0 <= i < |tail|
      ensures tail[i] == AtTime(q.events[i], tail[i].timePs)
    {
      assert tail[i] == out[|s2.events| + i];
    }
  }

  // ----- several boards in one stream -----

  function OfBoard(board: nat, evs: seq<RawEvent>): seq<RawEvent> {
    if evs == [] then []
    else (if evs[0].board == board then [evs[0]] else []) + OfBoard(board, evs[1..])
  }

  function DecodedOfBoard(board: nat, evs: seq<DecodedEvent>): seq<DecodedEvent> {
    if evs == [] then []
    else (if evs[0].board == board then [evs[0]] else []) + DecodedOfBoard(board, evs[1..])
  }

  lemma SeqAssociates<T>(a: seq<T>, b: seq<T>, c: seq<T>)
    ensures a + (b + c) == (a + b) + c
  {
  }

  lemma {:induction false} OfBoardAppends(board: nat, a: seq<RawEvent>, b: seq<RawEvent>)
    ensures OfBoard(board, a + b) == OfBoard(board, a) + OfBoard(board, b)
    decreases |a|
  {
    if a == [] {
      assert a + b == b;
    } else {
      var rest := a[1..] + b;
      assert (a + b)[1..] == rest && (a + b)[0] == a[0];
      OfBoardAppends(board, a[1..], b);
      SeqAssociates(if a[0].board == board then [a[0]] else [], OfBoard(board, a[1..]), OfBoard(board, b));
    }
  }

  lemma {:induction false} DecodedOfBoardAppends(board: nat, a: seq<DecodedEvent>, b: seq<DecodedEvent>)
    ensures DecodedOfBoard(board, a + b) == DecodedOfBoard(board, a) + DecodedOfBoard(board, b)
    decreases |a|
  {
    if a == [] {
      assert a + b == b;
    } else {
      var rest := a[1..] + b;
      assert (a + b)[1..] == rest && (a + b)[0] == a[0];
      DecodedOfBoardAppends(board, a[1..], b);
      SeqAssociates(if a[0].board == board then [a[0]] else [], DecodedOfBoard(board, a[1..]), DecodedOfBoard(board, b));
    }
  }

  /** Two decoders that agree on a board stay in agreement on it, whatever the first is given of other
      boards in between. */
  lemma {:induction false} OtherBoardsUnseen(boards: map<nat, BoardCfg>, board: nat, s: DecState, t: DecState, evs: seq<RawEvent>)
    requires ClockOf(s.clocks, board) == ClockOf(t.clocks, board)
    requires DecodedOfBoard(board, s.events) == DecodedOfBoard(board, t.events)
    ensures var s' := DeliverAll(boards, s, evs);
            var t' := DeliverAll(boards, t, OfBoard(board, evs));
            && ClockOf(s'.clocks, board) == ClockOf(t'.clocks, board)
            && DecodedOfBoard(board, s'.events) == DecodedOfBoard(board, t'.events)
    decreases |evs|
  {
    if evs != [] {
      var e := evs[0];
      var s1 := Deliver(boards, s, e);
      DecodedOfBoardAppends(board, s.events, [AtTime(e, EventTimePs(boards, s.clocks, e))]);
      if e.board == board {
        var t1 := Deliver(boards, t, e);
        DecodedOfBoardAppends(board, t.events, [AtTime(e, EventTimePs(boards, t.clocks, e))]);
        assert OfBoard(board, evs)[0] == e && OfBoard(board, evs)[1..] == OfBoard(board, evs[1..]);
        OtherBoardsUnseen(boards, board, s1, t1, evs[1..]);
      } else {
        assert OfBoard(board, evs) == OfBoard(board, evs[1..]);
        OtherBoardsUnseen(boards, board, s1, t, evs[1..]);
      }
    }
  }

  function Concat(aggs: seq<seq<Word>>): seq<Word> {
    if aggs == [] then [] else aggs[0] + Concat(aggs[1..])
  }

  /** Aggregate `i` stands right behind those before it, and nothing stands behind the last. */
  lemma {:induction false} ConcatInOrder(aggs: seq<seq<Word>>, i: nat)
    requires i < |aggs|
    ensures Concat(aggs[..i]) + aggs[i] <= Concat(aggs)
    ensures i == |aggs| - 1 ==> Concat(aggs[..i]) + aggs[i] == Concat(aggs)
    decreases i
  {
    if i > 0 {
      ConcatInOrder(aggs[1..], i - 1);
      assert aggs[..i][1..] == aggs[1..][..i - 1];
      assert Concat(aggs[..i]) + aggs[i] == aggs[0] + (Concat(aggs[1..][..i - 1]) + aggs[i]);
    } else {
      assert Concat(aggs[..0]) + aggs[0] == aggs[0];
    }
  }

  predicate AllWhole(aggs: seq<seq<Word>>) {
    forall i :: 0 <= i < |aggs| ==> WholeAggregate(aggs[i])
  }

  /** The aggregates that carry a board's id. */
  function AggsOfBoard(board: nat, aggs: seq<seq<Word>>): seq<seq<Word>>
    requires AllWhole(aggs)
  {
    if aggs == [] then []
    else (if BoardOf(aggs[0]) == board then [aggs[0]] else []) + AggsOfBoard(board, aggs[1..])
  }

  lemma {:induction false} AggsOfBoardWhole(board: nat, aggs: seq<seq<Word>>)
    requires AllWhole(aggs)
    ensures AllWhole(AggsOfBoard(board, aggs))
  {
    if aggs != [] {
      AggsOfBoardWhole(board, aggs[1..]);
    }
  }

  lemma {:induction false} EventsNameTheirBoard(k: FrameKind, l: DataLayout, board: nat, couple: nat, payload: seq<Word>)
    requires LayoutConsistent(k, l) && l.evtSize > 0
    ensures forall i :: 0 <= i < |ParseEvents(k, l, board, couple, payload)| ==>
              ParseEvents(k, l, board, couple, payload)[i].board == board
    decreases |payload|
  {
    hide LayoutConsistent, ExtractBits, Bit, ExtrasOf, TraceOf;
    if |payload| >= l.evtSize {
      EventsNameTheirBoard(k, l, board, couple, payload[l.evtSize..]);
    }
  }

  lemma {:induction false} CouplesNameTheirBoard(k: FrameKind, board: nat, couples: seq<nat>, body: seq<Word>)
    ensures forall i :: 0 <= i < |ParseCouples(k, board, couples, body).events| ==>
              ParseCouples(k, board, couples, body).events[i].board == board
    decreases |couples|
  {
    hide ExtractBits, Resolve, LayoutConsistent, ParseEvents, Condemned, EventCount;
    if couples != [] && CoupleFits(k, body) {
      var size := ExtractBits(body[0], SizeFormat(k));
      CouplesNameTheirBoard(k, board, couples[1..], body[size..]);
      var w := body[..size];
      ResolveConsistent(k, w[1]);
      EventsNameTheirBoard(k, Resolve(k, w[1]), board, couples[0], w[2..]);
    }
  }

  lemma {:induction false} OfBoardAll(board: nat, b: nat, evs: seq<RawEvent>)
    requires forall i :: 0 <= i < |evs| ==> evs[i].board == b
    ensures OfBoard(board, evs) == if b == board then evs else []
    decreases |evs|
  {
    if evs != [] {
      OfBoardAll(board, b, evs[1..]);
      assert [evs[0]] + evs[1..] == evs;
    }
  }

  lemma AggregateIsOneBoards(boards: map<nat, BoardCfg>, board: nat, a: seq<Word>)
    requires |a| >= AGG_HEADER_WORDS
    ensures OfBoard(board, ParseAggregate(boards, a).events) ==
            if BoardOf(a) == board then ParseAggregate(boards, a).events else []
  {
    hide ExtractBits, ParseCouples, Supported, Bit;
    var b := BoardOf(a);
    if b in boards && Supported(boards[b].kind) {
      CouplesNameTheirBoard(boards[b].kind, b, Couples(a[1]), a[AGG_HEADER_WORDS..]);
    }
    OfBoardAll(board, b, ParseAggregate(boards, a).events);
  }

  lemma {:induction false} StreamOfBoard(boards: map<nat, BoardCfg>, board: nat, aggs: seq<seq<Word>>)
    requires AllWhole(aggs)
    ensures OfBoard(board, ParseBuffer(boards, Concat(aggs)).events) ==
            ParseBuffer(boards, Concat(AggsOfBoard(board, aggs))).events
    decreases |aggs|
  {
    hide ParseAggregate, BoardOf, Marker, AggLength, ParseBuffer;
    if aggs == [] {
      ShortIsNothing(boards, []);
    } else {
      var a, rest := aggs[0], aggs[1..];
      StreamOfBoard(boards, board, rest);
      AggregateFirst(boards, a, Concat(rest));
      OfBoardAppends(board, ParseAggregate(boards, a).events, ParseBuffer(boards, Concat(rest)).events);
      AggregateIsOneBoards(boards, board, a);
      if BoardOf(a) == board {
        assert AggsOfBoard(board, aggs)[0] == a && AggsOfBoard(board, aggs)[1..] == AggsOfBoard(board, rest);
        AggregateFirst(boards, a, Concat(AggsOfBoard(board, rest)));
      } else {
        assert AggsOfBoard(board, aggs) == AggsOfBoard(board, rest);
      }
    }
  }

  /** Boards do not interfere: of any interleaving of whole aggregates, a board's events, times included,
      are those of its own aggregates decoded alone. */
  lemma BoardsDoNotInterfere(boards: map<nat, BoardCfg>, board: nat, aggs: seq<seq<Word>>)
    requires AllWhole(aggs)
    ensures DecodedOfBoard(board, Advance(boards, INITIAL, ParseBuffer(boards, Concat(aggs))).events) ==
            Advance(boards, INITIAL, ParseBuffer(boards, Concat(AggsOfBoard(board, aggs)))).events
  {
    var p := ParseBuffer(boards, Concat(aggs));
    var q := ParseBuffer(boards, Concat(AggsOfBoard(board, aggs)));
    StreamOfBoard(boards, board, aggs);
    OtherBoardsUnseen(boards, board, Count(INITIAL, p), Count(INITIAL, q), p.events);
    AggsOfBoardWhole(board, aggs);
    OnlyItsBoard(boards, board, Count(INITIAL, q), q.events, p.events);
  }

  lemma {:induction false} OnlyItsBoard(boards: map<nat, BoardCfg>, board: nat, s: DecState, evs: seq<RawEvent>, all: seq<RawEvent>)
    requires evs == OfBoard(board, all) && DecodedOfBoard(board, s.events) == s.events
    ensures DecodedOfBoard(board, DeliverAll(boards, s, evs).events) == DeliverAll(boards, s, evs).events
    decreases |all|
  {
    if all != [] {
      if all[0].board == board {
        var d := AtTime(all[0], EventTimePs(boards, s.clocks, all[0]));
        DecodedOfBoardAppends(board, s.events, [d]);
        assert evs[0] == all[0] && evs[1..] == OfBoard(board, all[1..]);
        OnlyItsBoard(boards, board, Deliver(boards, s, evs[0]), evs[1..], all[1..]);
      } else {
        assert evs == OfBoard(board, all[1..]);
        OnlyItsBoard(boards, board, s, evs, all[1..]);
      }
    }
  }

  // ----- conservation of events -----

  /** The events that the couple sizes of an aggregate claim, up to the first couple that does not fit. */
  function ClaimedByCouples(k: FrameKind, couples: nat, body: seq<Word>): nat
    decreases couples
  {
    if couples == 0 || !CoupleFits(k, body) then 0
    else
      var size := ExtractBits(body[0], SizeFormat(k));
      EventCount(size - 2, Resolve(k, body[1]).evtSize) + ClaimedByCouples(k, couples - 1, body[size..])
  }

  /** The events claimed by a buffer's accepted couples. */
  function Claimed(boards: map<nat, BoardCfg>, w: seq<Word>): nat
    decreases |w|
  {
    if |w| < AGG_HEADER_WORDS then 0
    else if !Marker(w[0]) || AggLength(w[0]) < AGG_HEADER_WORDS then Claimed(boards, w[1..])
    else if AggLength(w[0]) > |w| then 0
    else
      var n := AggLength(w[0]);
      var board := BoardOf(w);
      (if board in boards && Supported(boards[board].kind)
       then ClaimedByCouples(boards[board].kind, |Couples(w[1])|, w[AGG_HEADER_WORDS..n]) else 0)
      + Claimed(boards, w[n..])
  }

  lemma {:induction false} EventsCounted(k: FrameKind, l: DataLayout, board: nat, couple: nat, payload: seq<Word>)
    requires LayoutConsistent(k, l) && l.evtSize > 0
    ensures |ParseEvents(k, l, board, couple, payload)| == EventCount(|payload|, l.evtSize)
    decreases |payload|
  {
    hide LayoutConsistent, ParseEvent, EventCount;
    EventCountStep(|payload|, l.evtSize);
    if |payload| >= l.evtSize {
      EventsCounted(k, l, board, couple, payload[l.evtSize..]);
    }
  }

  /** A couple is delivered whole or condemned whole. */
  lemma CoupleAllOrNothing(k: FrameKind, board: nat, couple: nat, w: seq<Word>)
    requires |w| >= 2 && Resolve(k, w[1]).evtSize > 0
    ensures var p := ParseCouple(k, board, couple, w);
            var n := EventCount(|w| - 2, Resolve(k, w[1]).evtSize);
            || (|p.events| == n && p.uninitialised == 0 && p.uninitialisedEvents == 0)
            || (p == Parsed([], 0, 0, 1, n, 0) && k.pha)
  {
    hide Resolve, LayoutConsistent, ParseEvents, Condemned, EventCount;
    ResolveConsistent(k, w[1]);
    EventsCounted(k, Resolve(k, w[1]), board, couple, w[2..]);
  }

  lemma {:induction false} CouplesConserve(k: FrameKind, board: nat, couples: seq<nat>, body: seq<Word>)
    ensures var p := ParseCouples(k, board, couples, body);
            |p.events| + p.uninitialisedEvents == ClaimedByCouples(k, |couples|, body)
    decreases |couples|
  {
    hide Resolve, ExtractBits, ParseCouple, EventCount;
    if couples != [] && CoupleFits(k, body) {
      var size := ExtractBits(body[0], SizeFormat(k));
      CoupleAllOrNothing(k, board, couples[0], body[..size]);
      CouplesConserve(k, board, couples[1..], body[size..]);
    }
  }

  /** No event is lost or invented: the events delivered plus those of condemned couples are the events
      the accepted couples claim. */
  lemma {:induction false} EventsAreConserved(boards: map<nat, BoardCfg>, w: seq<Word>)
    ensures var p := ParseBuffer(boards, w);
            |p.events| + p.uninitialisedEvents == Claimed(boards, w)
    decreases |w|
  {
    hide ExtractBits, ParseCouples, ClaimedByCouples, Supported, Couples, Bit;
    if |w| >= AGG_HEADER_WORDS {
      var n := AggLength(w[0]);
      if !Marker(w[0]) || n < AGG_HEADER_WORDS {
        EventsAreConserved(boards, w[1..]);
      } else if n <= |w| {
        EventsAreConserved(boards, w[n..]);
        var a := w[..n];
        var board := BoardOf(a);
        assert a[AGG_HEADER_WORDS..] == w[AGG_HEADER_WORDS..n];
        if board in boards {
          CouplesConserve(boards[board].kind, board, Couples(a[1]), a[AGG_HEADER_WORDS..]);
        }
      }
    }
  }

  /** `couples` couples fill `body` exactly. */
  predicate CouplesFill(k: FrameKind, couples: nat, body: seq<Word>)
    decreases couples
  {
    if couples == 0 then body == []
    else CoupleFits(k, body) && CouplesFill(k, couples - 1, body[ExtractBits(body[0], SizeFormat(k))..])
  }

  /** A condemned couple leaves all other couples, and through them the board's clock, exactly as if it
      were not there; only its own counts appear. */
  lemma {:induction false} CondemnedAsIfAbsent(k: FrameKind, board: nat, first: seq<nat>, couple: nat, rest: seq<nat>,
                                               before: seq<Word>, bad: seq<Word>, after: seq<Word>)
    requires CouplesFill(k, |first|, before)
    requires CoupleFits(k, bad) && ExtractBits(bad[0], SizeFormat(k)) == |bad|
    requires ParseCouple(k, board, couple, bad).uninitialised == 1
    ensures var with := ParseCouples(k, board, first + [couple] + rest, before + bad + after);
            var without := ParseCouples(k, board, first + rest, before + after);
            with == without.(uninitialised := without.uninitialised + 1,
                             uninitialisedEvents := without.uninitialisedEvents + EventCount(|bad| - 2, Resolve(k, bad[1]).evtSize))
    decreases |first|
  {
    hide Resolve, ExtractBits, ParseCouple, ParseCouples, EventCount;
    if first == [] {
      assert first + [couple] + rest == [couple] + rest && first + rest == rest;
      assert before + bad + after == bad + after && before + after == after;
      CondemnedFirst(k, board, couple, rest, bad, after);
    } else {
      var size := ExtractBits(before[0], SizeFormat(k));
      CondemnedAsIfAbsent(k, board, first[1..], couple, rest, before[size..], bad, after);
      HeadCouple(k, board, first, [couple] + rest, before, bad + after);
      HeadCouple(k, board, first, rest, before, after);
      assert first + [couple] + rest == first + ([couple] + rest) && first[1..] + [couple] + rest == first[1..] + ([couple] + rest);
      assert before + bad + after == before + (bad + after) && before[size..] + bad + after == before[size..] + (bad + after);
    }
  }

  /** An aggregate of a known board without one of its couples: `with` carries `bad` as couple number
      `couple` behind `first`, `without` is the same aggregate with neither its mask bit nor its words. */
  ghost predicate Removed(boards: map<nat, BoardCfg>, with: seq<Word>, without: seq<Word>, couple: nat, bad: seq<Word>,
                          first: seq<nat>, rest: seq<nat>, before: seq<Word>, after: seq<Word>)
  {
    && WholeAggregate(with) && WholeAggregate(without)
    && BoardOf(with) == BoardOf(without) && BoardOf(with) in boards && Supported(boards[BoardOf(with)].kind)
    && FailCount(with[1]) == FailCount(without[1])
    && Couples(with[1]) == first + [couple] + rest && Couples(without[1]) == first + rest
    && with[AGG_HEADER_WORDS..] == before + bad + after && without[AGG_HEADER_WORDS..] == before + after
    && var k := boards[BoardOf(with)].kind;
       && CouplesFill(k, |first|, before)
       && CoupleFits(k, bad) && ExtractBits(bad[0], SizeFormat(k)) == |bad|
       && ParseCouple(k, BoardOf(with), couple, bad).uninitialised == 1
  }

  /** What a condemned couple leaves in the counters, and nothing anywhere else. */
  function Condemning(s: DecState, n: nat): DecState {
    s.(uninitialised := s.uninitialised + 1, uninitialisedEvents := s.uninitialisedEvents + n)
  }

  /** In any stream and from any state: a condemned couple leaves all clocks, all delivered events with
      their times, and all other counters exactly as if the board had not sent it. */
  lemma CondemnedLeavesNoTrace(boards: map<nat, BoardCfg>, s: DecState, pre: seq<Word>, with: seq<Word>, without: seq<Word>,
                               post: seq<Word>, couple: nat, bad: seq<Word>,
                               first: seq<nat>, rest: seq<nat>, before: seq<Word>, after: seq<Word>)
    requires CutBetweenAggregates(pre) && Removed(boards, with, without, couple, bad, first, rest, before, after)
    ensures var n := EventCount(|bad| - 2, Resolve(boards[BoardOf(with)].kind, bad[1]).evtSize);
            Advance(boards, s, ParseBuffer(boards, pre + with + post)) ==
            Condemning(Advance(boards, s, ParseBuffer(boards, pre + without + post)), n)
  {
    hide ParseBuffer, ParseCouples, ParseCouple, Resolve, ExtractBits, EventCount, Advance, Marker, AggLength, Couples, FailCount,
         CutBetweenAggregates, CouplesFill, Join, Supported;
    var k, board := boards[BoardOf(with)].kind, BoardOf(with);
    var n := EventCount(|bad| - 2, Resolve(k, bad[1]).evtSize);
    AroundAggregate(boards, pre, with, post);
    AroundAggregate(boards, pre, without, post);
    CondemnedAsIfAbsent(k, board, first, couple, rest, before, bad, after);
    CondemnedAggregate(boards, with, without, n, first + [couple] + rest, first + rest);
    var p, q := ParseBuffer(boards, pre), ParseBuffer(boards, post);
    CondemnedAdvance(boards, s, p, ParseAggregate(boards, with), ParseAggregate(boards, without), q, n);
  }

  /** The same parse but for the counts of one condemned couple. */
  predicate MoreCondemned(a: Parsed, b: Parsed, n: nat) {
    a == b.(uninitialised := b.uninitialised + 1, uninitialisedEvents := b.uninitialisedEvents + n)
  }

  lemma CondemnedAggregate(boards: map<nat, BoardCfg>, with: seq<Word>, without: seq<Word>, n: nat, cs: seq<nat>, cs': seq<nat>)
    requires |with| >= AGG_HEADER_WORDS && |without| >= AGG_HEADER_WORDS
    requires BoardOf(with) == BoardOf(without) && BoardOf(with) in boards && Supported(boards[BoardOf(with)].kind)
    requires FailCount(with[1]) == FailCount(without[1]) && Couples(with[1]) == cs && Couples(without[1]) == cs'
    requires var k := boards[BoardOf(with)].kind;
             MoreCondemned(ParseCouples(k, BoardOf(with), cs, with[AGG_HEADER_WORDS..]),
                           ParseCouples(k, BoardOf(with), cs', without[AGG_HEADER_WORDS..]), n)
    ensures MoreCondemned(ParseAggregate(boards, with), ParseAggregate(boards, without), n)
  {
    hide ParseCouples, ExtractBits, Couples, FailCount, Supported;
  }

  lemma CondemnedAdvance(boards: map<nat, BoardCfg>, s: DecState, p: Parsed, a: Parsed, b: Parsed, q: Parsed, n: nat)
    requires MoreCondemned(a, b, n)
    ensures Advance(boards, s, Join(p, Join(a, q))) == Condemning(Advance(boards, s, Join(p, Join(b, q))), n)
  {
    hide Deliver;
    var x, y := Join(p, Join(a, q)), Join(p, Join(b, q));
    assert x.events == y.events;
    var extra := NOTHING.(uninitialised := 1, uninitialisedEvents := n);
    CountCommutes(boards, Count(s, y), y.events, extra);
    assert Count(Count(s, y), extra) == Count(s, x);
  }

  lemma CondemnedFirst(k: FrameKind, board: nat, couple: nat, rest: seq<nat>, bad: seq<Word>, after: seq<Word>)
    requires CoupleFits(k, bad) && ExtractBits(bad[0], SizeFormat(k)) == |bad|
    requires ParseCouple(k, board, couple, bad).uninitialised == 1
    ensures var without := ParseCouples(k, board, rest, after);
            ParseCouples(k, board, [couple] + rest, bad + after) ==
            without.(uninitialised := without.uninitialised + 1,
                     uninitialisedEvents := without.uninitialisedEvents + EventCount(|bad| - 2, Resolve(k, bad[1]).evtSize))
  {
    hide Resolve, ExtractBits, ParseCouple, EventCount;
    HeadCouple(k, board, [couple], rest, bad, after);
    assert bad[..|bad|] == bad && bad[|bad|..] + after == after && [couple][1..] + rest == rest;
    CoupleAllOrNothing(k, board, couple, bad);
    var without := ParseCouples(k, board, rest, after);
    assert [] + without.events == without.events;
  }

  lemma HeadCouple(k: FrameKind, board: nat, first: seq<nat>, rest: seq<nat>, before: seq<Word>, after: seq<Word>)
    requires first != [] && CoupleFits(k, before)
    ensures var size := ExtractBits(before[0], SizeFormat(k));
            ParseCouples(k, board, first + rest, before + after) ==
            Join(ParseCouple(k, board, first[0], before[..size]), ParseCouples(k, board, first[1..] + rest, before[size..] + after))
  {
    hide Resolve, ExtractBits, ParseCouple;
    var size := ExtractBits(before[0], SizeFormat(k));
    var body := before + after;
    assert body[0] == before[0] && body[1] == before[1];
    assert body[..size] == before[..size] && body[size..] == before[size..] + after;
    assert (first + rest)[1..] == first[1..] + rest;
  }
}
