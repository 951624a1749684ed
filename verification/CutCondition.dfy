/** Where a stream may be cut between two decode calls: exactly behind a whole aggregate. */
module CutCondition {
  import opened Words
  import opened DataFrames
  import opened Parsing
  import opened Stamping
  import opened Decoder
  import opened DecodingLaws

  const FAIL_WORD: Word := 0x400_0000   // the second header word of board 0, with nothing but the FAIL bit
  const SHORT_MARKER: Word := 0xA000_0004

  function Zeros(n: nat): seq<Word> { seq(n, _ => 0) }

  predicate NoMarker(ws: seq<Word>) { forall i :: 0 <= i < |ws| ==> !Marker(ws[i]) }

  lemma WordsAtHand()
    ensures !Marker(0) && !Marker(FAIL_WORD) && FailCount(FAIL_WORD) == 1
    ensures Marker(SHORT_MARKER) && AggLength(SHORT_MARKER) == AGG_HEADER_WORDS
  {
    hide ExtractBits, Bit;
    FieldTable(0);
    FieldTable(FAIL_WORD);
    BitTable(FAIL_WORD);
    FieldTable(SHORT_MARKER);
  }

  lemma NoMarkerNothing(boards: map<nat, BoardCfg>, ws: seq<Word>)
    requires NoMarker(ws)
    ensures ParseBuffer(boards, ws) == NOTHING
  {
    hide Marker, ParseBuffer;
    GarbageIsSkipped(boards, ws, []);
    ShortIsNothing(boards, []);
    assert ws + [] == ws;
  }

  /** Couples never touch the fail counter. */
  lemma {:induction false} CouplesCountNoFail(k: FrameKind, board: nat, couples: seq<nat>, body: seq<Word>)
    ensures ParseCouples(k, board, couples, body).boardFail == 0
    decreases |couples|
  {
    hide Resolve, ExtractBits, ParseEvents, Condemned, EventCount;
    if couples != [] && CoupleFits(k, body) {
      CouplesCountNoFail(k, board, couples[1..], body[ExtractBits(body[0], SizeFormat(k))..]);
    }
  }

  lemma AggregateFail(boards: map<nat, BoardCfg>, a: seq<Word>)
    requires |a| >= AGG_HEADER_WORDS
    ensures ParseAggregate(boards, a).boardFail == FailCount(a[1])
  {
    hide ParseCouples, Couples, Supported, ExtractBits, FailCount;
    var board := BoardOf(a);
    if board in boards {
      CouplesCountNoFail(boards[board].kind, board, Couples(a[1]), a[AGG_HEADER_WORDS..]);
    }
  }

  /** The walk leaves less than a header, or starts on a partial aggregate. */
  lemma {:induction false} UnreadShape(x: seq<Word>)
    ensures var u := Unread(x);
            |u| < AGG_HEADER_WORDS || (Marker(u[0]) && AGG_HEADER_WORDS <= AggLength(u[0]) && |u| < AggLength(u[0]))
    decreases |x|
  {
    hide Marker, AggLength;
    if |x| >= AGG_HEADER_WORDS {
      var n := AggLength(x[0]);
      if !Marker(x[0]) || n < AGG_HEADER_WORDS {
        UnreadShape(x[1..]);
      } else if n <= |x| {
        UnreadShape(x[n..]);
      }
    }
  }

  /** The unread words from their first marker on. */
  predicate Splits(u: seq<Word>, g: seq<Word>, v: seq<Word>) {
    u == g + v && NoMarker(g) && v != [] && Marker(v[0])
  }

  lemma {:induction false} FirstMarker(u: seq<Word>) returns (g: seq<Word>, v: seq<Word>)
    requires !NoMarker(u)
    ensures Splits(u, g, v)
    decreases |u|
  {
    hide Marker;
    if Marker(u[0]) {
      g, v := [], u;
      assert u == g + v;
    } else {
      var g', v' := FirstMarker(u[1..]);
      g, v := [u[0]] + g', v';
      assert u == g + v;
    }
  }

  /** What is counted for `w` is not what is counted for `y`. */
  predicate Differs(boards: map<nat, BoardCfg>, w: seq<Word>, y: seq<Word>) {
    || ParseBuffer(boards, w).corrupt != ParseBuffer(boards, y).corrupt
    || ParseBuffer(boards, w).boardFail != ParseBuffer(boards, y).boardFail
  }

  /** A whole aggregate followed by words without a marker. */
  lemma OneAggregate(boards: map<nat, BoardCfg>, a: seq<Word>, rest: seq<Word>)
    requires WholeAggregate(a) && NoMarker(rest)
    ensures ParseBuffer(boards, a + rest).boardFail == FailCount(a[1])
  {
    hide ParseBuffer, ParseAggregate, Marker, AggLength, FailCount;
    AggregateFirst(boards, a, rest);
    NoMarkerNothing(boards, rest);
    AggregateFail(boards, a);
  }

  /** A marker with an impossible length: four zeros show the corruption. */
  lemma BadLengthDiffers(boards: map<nat, BoardCfg>, v: seq<Word>)
    requires v != [] && Marker(v[0]) && AggLength(v[0]) < AGG_HEADER_WORDS
    ensures Differs(boards, v + Zeros(4), Zeros(4))
  {
    hide Marker, AggLength, ParseAggregate;
    WordsAtHand();
    NoMarkerNothing(boards, Zeros(4));
    var w := v + Zeros(4);
    assert w[0] == v[0];
    assert ParseBuffer(boards, w) == Join(CORRUPT, ParseBuffer(boards, w[1..]));
  }

  /** Only the marker: the second header word comes with the rest, and its FAIL bit with it. */
  lemma MarkerAloneDiffers(boards: map<nat, BoardCfg>, v: seq<Word>, n: nat)
    requires |v| == 1 && Marker(v[0]) && n == AggLength(v[0]) >= AGG_HEADER_WORDS
    ensures Differs(boards, v + ([FAIL_WORD] + Zeros(n - 2)), [FAIL_WORD] + Zeros(n - 2))
  {
    hide Marker, AggLength, ParseBuffer, FailCount;
    WordsAtHand();
    var y := [FAIL_WORD] + Zeros(n - 2);
    NoMarkerNothing(boards, y);
    OneAggregate(boards, v + y, []);
    assert v + y + [] == v + y;
  }

  /** The FAIL bit is already there: zeros complete the aggregate. */
  lemma FailedDiffers(boards: map<nat, BoardCfg>, v: seq<Word>, n: nat)
    requires 2 <= |v| < n && Marker(v[0]) && n == AggLength(v[0]) >= AGG_HEADER_WORDS && FailCount(v[1]) == 1
    ensures Differs(boards, v + Zeros(n - |v|), Zeros(n - |v|))
  {
    hide Marker, AggLength, ParseBuffer, FailCount;
    WordsAtHand();
    var y := Zeros(n - |v|);
    NoMarkerNothing(boards, y);
    OneAggregate(boards, v + y, []);
    assert v + y + [] == v + y;
  }

  /** Otherwise an aggregate that follows is swallowed. */
  lemma SwallowedDiffers(boards: map<nat, BoardCfg>, v: seq<Word>, n: nat)
    requires 2 <= |v| < n && Marker(v[0]) && n == AggLength(v[0]) >= AGG_HEADER_WORDS && FailCount(v[1]) == 0
    ensures var y := [SHORT_MARKER, FAIL_WORD, 0, 0] + Zeros(n); Differs(boards, v + y, y)
  {
    hide Marker, AggLength, ParseBuffer, FailCount;
    WordsAtHand();
    var short, y := [SHORT_MARKER, FAIL_WORD, 0, 0], [SHORT_MARKER, FAIL_WORD, 0, 0] + Zeros(n);
    OneAggregate(boards, short, Zeros(n));
    var a, rest := (v + y)[..n], y[n - |v|..];
    assert v + y == a + rest && a[0] == v[0] && a[1] == v[1];
    forall i | 0 <= i < |rest|
      ensures !Marker(rest[i])
    {
      assert rest[i] == y[n - |v| + i] && n - |v| + i > 0;
    }
    OneAggregate(boards, a, rest);
  }

  /** Some continuation shows every cut through an aggregate. */
  lemma CutShows(boards: map<nat, BoardCfg>, x: seq<Word>) returns (y: seq<Word>)
    requires !CutBetweenAggregates(x)
    ensures Differs(boards, Unread(x) + y, y)
  {
    hide Marker, AggLength, ParseBuffer, Unread, FailCount, Differs;
    UnreadShape(x);
    var u := Unread(x);
    var g, v := FirstMarker(u);
    var n := AggLength(v[0]);
    assert g != [] ==> u[0] == g[0];
    assert |u| >= AGG_HEADER_WORDS ==> g == [] && v == u;
    if n < AGG_HEADER_WORDS {
      y := Zeros(4);
      BadLengthDiffers(boards, v);
    } else if |v| == 1 {
      y := [FAIL_WORD] + Zeros(n - 2);
      MarkerAloneDiffers(boards, v, n);
    } else if FailCount(v[1]) == 1 {
      y := Zeros(n - |v|);
      FailedDiffers(boards, v, n);
    } else {
      y := [SHORT_MARKER, FAIL_WORD, 0, 0] + Zeros(n);
      FailBitOrNot(v[1]);
      SwallowedDiffers(boards, v, n);
    }
    GarbageIsSkipped(boards, g, v + y);
    assert u + y == g + (v + y);
    SameDiffers(boards, v + y, u + y, y);
  }

  lemma FailBitOrNot(w: Word)
    ensures FailCount(w) == 0 || FailCount(w) == 1
  {
  }

  lemma SameDiffers(boards: map<nat, BoardCfg>, v: seq<Word>, w: seq<Word>, y: seq<Word>)
    requires Differs(boards, v, y) && ParseBuffer(boards, v) == ParseBuffer(boards, w)
    ensures Differs(boards, w, y)
  {
    hide ParseBuffer;
  }

  /** A stream can be read in two buffers if and only if the first ends between aggregates: only then
      does every continuation mean the same alone as behind it. */
  lemma CutHarmlessIff(boards: map<nat, BoardCfg>, x: seq<Word>)
    ensures CutBetweenAggregates(x) <==>
            forall y :: ParseBuffer(boards, x + y) == Join(ParseBuffer(boards, x), ParseBuffer(boards, y))
  {
    hide ParseBuffer, Unread, CutBetweenAggregates;
    if CutBetweenAggregates(x) {
      forall y
        ensures ParseBuffer(boards, x + y) == Join(ParseBuffer(boards, x), ParseBuffer(boards, y))
      {
        CutAnywhere(boards, x, y);
        HarmlessCut(boards, x, y);
      }
    } else {
      var y := CutShows(boards, x);
      CutAnywhere(boards, x, y);
      assert ParseBuffer(boards, x + y) != Join(ParseBuffer(boards, x), ParseBuffer(boards, y));
    }
  }

  lemma HarmlessCut(boards: map<nat, BoardCfg>, x: seq<Word>, y: seq<Word>)
    requires CutBetweenAggregates(x)
    ensures ParseBuffer(boards, Unread(x) + y) == ParseBuffer(boards, y)
  {
    hide ParseBuffer, Unread, Marker;
    GarbageIsSkipped(boards, Unread(x), y);
  }

  /** The same of the decoder: two calls leave it as one call does, from every state and whatever
      follows, if and only if the first buffer ends between aggregates. */
  lemma DecodeInPartsIff(boards: map<nat, BoardCfg>, x: seq<Word>)
    ensures CutBetweenAggregates(x) <==>
            forall s, y :: Advance(boards, s, ParseBuffer(boards, x + y)) ==
                           Advance(boards, Advance(boards, s, ParseBuffer(boards, x)), ParseBuffer(boards, y))
  {
    hide ParseBuffer, Unread, CutBetweenAggregates, Advance;
    if CutBetweenAggregates(x) {
      forall s, y
        ensures Advance(boards, s, ParseBuffer(boards, x + y)) ==
                Advance(boards, Advance(boards, s, ParseBuffer(boards, x)), ParseBuffer(boards, y))
      {
        DecodeInParts(boards, s, x, y);
      }
    } else {
      var y := CutShows(boards, x);
      CutAnywhere(boards, x, y);
      var p, q, r := ParseBuffer(boards, x), ParseBuffer(boards, Unread(x) + y), ParseBuffer(boards, y);
      AdvanceCounts(boards, INITIAL, Join(p, q));
      AdvanceCounts(boards, INITIAL, p);
      AdvanceCounts(boards, Advance(boards, INITIAL, p), r);
      assert Advance(boards, INITIAL, ParseBuffer(boards, x + y)) !=
             Advance(boards, Advance(boards, INITIAL, p), r);
    }
  }
}
