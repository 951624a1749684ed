/** From the boards' buffers to the events read back from the file, across queue, writer and decoder. */
module Recording {
  import opened Words
  import opened DataFileHeaders
  import opened Parsing
  import opened Stamping
  import opened Decoder
  import opened DecodingLaws
  import opened BlockQueues
  import opened RawFileWriters
  import Pipelines

  // ----- bytes and words -----

  function BytesOf(ws: seq<Word>): (bs: seq<Byte>)
    ensures |bs| == 4 * |ws|
  {
    if ws == [] then []
    else [ws[0] % 0x100, ws[0] / 0x100 % 0x100, ws[0] / 0x1_0000 % 0x100, ws[0] / 0x100_0000] + BytesOf(ws[1..])
  }

  /** Little-endian words; up to three bytes at the end are not read. */
  function WordsOf(bs: seq<Byte>): (ws: seq<Word>)
    ensures |ws| == |bs| / 4
  {
    if |bs| < 4 then []
    else [LittleEndian(bs[0], bs[1], bs[2], bs[3])] + WordsOf(bs[4..])
  }

  function LittleEndian(a: nat, b: nat, c: nat, d: nat): Word
    requires a < 0x100 && b < 0x100 && c < 0x100 && d < 0x100
  {
    a + 0x100 * b + 0x1_0000 * c + 0x100_0000 * d
  }

  lemma {:induction false} WordsOfBytes(ws: seq<Word>)
    ensures WordsOf(BytesOf(ws)) == ws
    decreases |ws|
  {
    hide LittleEndian;
    if ws != [] {
      assert BytesOf(ws)[4..] == BytesOf(ws[1..]);
      WordsOfBytes(ws[1..]);
      WordIsItsBytes(ws[0]);
    }
  }

  lemma WordIsItsBytes(w: Word)
    ensures LittleEndian(w % 0x100, w / 0x100 % 0x100, w / 0x1_0000 % 0x100, w / 0x100_0000) == w
  {
    var a, b, c := w / 0x100, w / 0x1_0000, w / 0x100_0000;
    assert w == w % 0x100 + 0x100 * a;
    assert a / 0x100 == b && a == a % 0x100 + 0x100 * b;
    assert b / 0x100 == c && b == b % 0x100 + 0x100 * c;
  }

  lemma {:induction false} WordsJoin(a: seq<Byte>, b: seq<Byte>)
    requires |a| % 4 == 0
    ensures WordsOf(a + b) == WordsOf(a) + WordsOf(b)
    decreases |a|
  {
    if a == [] {
      assert a + b == b;
    } else {
      assert (a + b)[4..] == a[4..] + b;
      WordsJoin(a[4..], b);
    }
  }

  /** Four bytes a word, the lowest first. */
  lemma {:induction false} ByteOrder(ws: seq<Word>, i: nat)
    requires i < |ws|
    ensures var bs := BytesOf(ws);
            && bs[4 * i] == ws[i] % 0x100
            && bs[4 * i + 1] == ws[i] / 0x100 % 0x100
            && bs[4 * i + 2] == ws[i] / 0x1_0000 % 0x100
            && bs[4 * i + 3] == ws[i] / 0x100_0000
    decreases |ws|
  {
    if i > 0 {
      ByteOrder(ws[1..], i - 1);
      assert BytesOf(ws)[4..] == BytesOf(ws[1..]);
    }
  }

  /** The size of blocks is the number of their bytes in the file. */
  lemma {:induction false} BytesAreFlattened(bs: seq<Block>)
    requires forall i :: 0 <= i < |bs| ==> bs[i].data != []
    ensures Bytes(bs) == |Flatten(DataOf(bs))|
    decreases |bs|
  {
    if bs != [] {
      BytesAreFlattened(bs[1..]);
      assert DataOf(bs)[1..] == DataOf(bs[1..]);
    }
  }

  // ----- decoding what was recorded -----

  /** Buffers as boards deliver them: words, and no aggregate cut in two at the end. */
  predicate WholeBuffers(bs: seq<Block>) {
    forall i :: 0 <= i < |bs| ==>
      bs[i].data != [] && |bs[i].data| % 4 == 0 && CutBetweenAggregates(WordsOf(bs[i].data))
  }

  function Buffers(bs: seq<Block>): seq<seq<Word>> {
    seq(|bs|, i requires 0 <= i < |bs| => WordsOf(bs[i].data))
  }

  lemma {:induction false} PayloadIsBuffers(boards: map<nat, BoardCfg>, s: DecState, bs: seq<Block>)
    requires WholeBuffers(bs)
    ensures |Flatten(DataOf(bs))| % 4 == 0
    ensures Advance(boards, s, ParseBuffer(boards, WordsOf(Flatten(DataOf(bs))))) == AfterBuffers(boards, s, Buffers(bs))
    decreases |bs|
  {
    hide ParseBuffer, Advance, WordsOf, CutBetweenAggregates;
    if bs == [] {
      EmptyPayload(boards, s);
    } else {
      var first, rest := bs[0].data, Flatten(DataOf(bs[1..]));
      assert DataOf(bs)[1..] == DataOf(bs[1..]);
      assert Buffers(bs)[1..] == Buffers(bs[1..]);
      assert Flatten(DataOf(bs)) == first + rest;
      WordsJoin(first, rest);
      DecodeInParts(boards, s, WordsOf(first), WordsOf(rest));
      PayloadIsBuffers(boards, Advance(boards, s, ParseBuffer(boards, WordsOf(first))), bs[1..]);
    }
  }

  lemma EmptyPayload(boards: map<nat, BoardCfg>, s: DecState)
    ensures Advance(boards, s, ParseBuffer(boards, WordsOf([]))) == s
  {
  }

  /** The items that a run writes. */
  function Written(header: seq<Word>, file: seq<Block>): seq<Item>
    requires header != [] && forall i :: 0 <= i < |file| ==> file[i].data != []
  {
    [BytesOf(header)] + DataOf(file)
  }

  /** A stopped run, whatever the interleaving of its threads and wherever the size limit split it: its
      part files, read one after the other, give back the header's board table, and decoding them at any
      later time gives exactly what decoding the accepted buffers one by one gives. */
  lemma RecordedRunReadsBack(cfg: Pipelines.Config, ss: seq<Pipelines.System>, acts: seq<Pipelines.Action>, i: nat,
                             limit: nat, defs: seq<BoardDef>, epoch: Word,
                             boards: map<nat, BoardCfg>, s: DecState)
    requires Pipelines.Runs(cfg, ss, acts) && i < |ss| && ss[i].control.Finished?
    requires WholeBuffers(ss[i].accepted)
    requires |defs| < 0xFFFF_FFF0 && forall k :: 0 <= k < |defs| ==> Fits(defs[k])
    ensures WholeBuffers(ss[i].file)
    ensures var header := HeaderOf(defs, epoch, 0, 0);
            var bytes := Flatten(Items(Parts(limit, Written(header, ss[i].file))));
            var start := ReadStart(WordsOf(bytes));
            && |bytes| % 4 == 0
            && start.Headed? && start.boards == defs && start.epoch == epoch
            && Advance(boards, s, ParseBuffer(boards, start.payload)) == AfterBuffers(boards, s, Buffers(ss[i].accepted))
  {
    hide Pipelines.Runs, ParseBuffer, Advance, AfterBuffers, Buffers, HeaderOf, ReadStart, WordsOf, BytesOf, Parts, Items, DataOf,
         CutBetweenAggregates, Fits, Pipelines.SumWritten, Pipelines.SumDrops, Bytes, Pipelines.Settled;
    Pipelines.StoppedRunIsOnFile(cfg, ss, acts, i);
    var file := ss[i].file;
    var header := HeaderOf(defs, epoch, 0, 0);
    assert header != [] by {
      HeaderStarts(defs, epoch);
    }
    var items := Written(header, file);
    PartsHoldItems(limit, items);
    OpeningBytes(header, file);
    PayloadIsBuffers(boards, s, file);
    var payload := Flatten(DataOf(file));
    WordsJoin(BytesOf(header), payload);
    WordsOfBytes(header);
    HeaderIsReadBack(defs, epoch, WordsOf(payload));
  }

  lemma HeaderStarts(defs: seq<BoardDef>, epoch: Word)
    ensures HeaderOf(defs, epoch, 0, 0) != []
  {
  }

  lemma OpeningBytes(header: seq<Word>, file: seq<Block>)
    requires header != [] && forall i :: 0 <= i < |file| ==> file[i].data != []
    ensures Flatten(Written(header, file)) == BytesOf(header) + Flatten(DataOf(file))
  {
    hide BytesOf, DataOf;
    assert Written(header, file)[1..] == DataOf(file);
  }

  /** The same for a run written without a header: the part files are the payload alone, and as long as
      that starts with a board aggregate, no reader takes it for a header. */
  lemma HeaderlessRunReadsBack(cfg: Pipelines.Config, ss: seq<Pipelines.System>, acts: seq<Pipelines.Action>, i: nat,
                               limit: nat, boards: map<nat, BoardCfg>, s: DecState)
    requires Pipelines.Runs(cfg, ss, acts) && i < |ss| && ss[i].control.Finished?
    requires WholeBuffers(ss[i].accepted)
    ensures WholeBuffers(ss[i].file)
    ensures var bytes := Flatten(Items(Parts(limit, DataOf(ss[i].file))));
            var w := WordsOf(bytes);
            && |bytes| % 4 == 0
            && Advance(boards, s, ParseBuffer(boards, w)) == AfterBuffers(boards, s, Buffers(ss[i].accepted))
            && (w != [] && Marker(w[0]) && |w| < 0xA000_0000 ==> ReadStart(w) == Continued(w))
  {
    hide Pipelines.Runs, ParseBuffer, Advance, AfterBuffers, Buffers, ReadStart, WordsOf, Parts, Items, DataOf, Flatten, Marker,
         CutBetweenAggregates, Pipelines.SumWritten, Pipelines.SumDrops, Bytes, Pipelines.Settled;
    Pipelines.StoppedRunIsOnFile(cfg, ss, acts, i);
    PartsHoldItems(limit, DataOf(ss[i].file));
    PayloadIsBuffers(boards, s, ss[i].file);
    NoHeaderThere(WordsOf(Flatten(DataOf(ss[i].file))));
  }

  /** A marker is larger than any header of a file that small. */
  lemma NoHeaderThere(w: seq<Word>)
    ensures w != [] && Marker(w[0]) && |w| < 0xA000_0000 ==> ReadStart(w) == Continued(w)
  {
    hide ExtractBits, UnpackBoardDef;
    if w != [] {
      FieldTable(w[0]);
    }
  }

  // ----- one board of a shared file -----

  /** The buffers that carry events of a board register id come from one board only. */
  predicate SpeaksAlone(boards: map<nat, BoardCfg>, bs: seq<Block>, b: nat, id: nat) {
    forall i :: 0 <= i < |bs| && bs[i].board != b ==>
      DecodingLaws.OfBoard(id, ParseBuffer(boards, WordsOf(bs[i].data)).events) == []
  }

  /** Two decoders that agree on a board: on its clock, and on its events so far. */
  predicate Agree(s: DecState, t: DecState, id: nat) {
    ClockOf(s.clocks, id) == ClockOf(t.clocks, id) && DecodedOfBoard(id, s.events) == DecodedOfBoard(id, t.events)
  }

  lemma BothTake(boards: map<nat, BoardCfg>, s: DecState, t: DecState, p: Parsed, id: nat)
    requires Agree(s, t, id)
    ensures Agree(Advance(boards, s, p), Advance(boards, t, p), id)
    ensures DecodingLaws.OfBoard(id, p.events) == [] ==> Agree(Advance(boards, s, p), t, id)
  {
    hide Deliver, ClockOf, DecodedOfBoard;
    OtherBoardsUnseen(boards, id, Count(s, p), Count(t, p), p.events);
    OtherBoardsUnseen(boards, id, Count(t, p), Count(t, p), p.events);
  }

  /** The events of one board are those of its own buffers decoded alone, times included, whatever the
      other boards recorded in between. */
  lemma {:induction false} BoardAlone(boards: map<nat, BoardCfg>, s: DecState, bs: seq<Block>, b: nat, id: nat)
    requires SpeaksAlone(boards, bs, b, id)
    ensures Agree(AfterBuffers(boards, s, Buffers(bs)), AfterBuffers(boards, s, Buffers(Pipelines.OfBoard(bs, b))), id)
    decreases |bs|
  {
    hide ParseBuffer, WordsOf, Advance, Agree, AfterBuffers;
    if bs == [] {
      Agrees(AfterBuffers(boards, s, Buffers(bs)), id);
    } else {
      var init, last := bs[..|bs| - 1], bs[|bs| - 1];
      var own := Pipelines.OfBoard(init, b);
      BoardAlone(boards, s, init, b, id);
      assert Buffers(bs) == Buffers(init) + [WordsOf(last.data)];
      OneMoreBuffer(boards, s, Buffers(init), WordsOf(last.data));
      BothTake(boards, AfterBuffers(boards, s, Buffers(init)), AfterBuffers(boards, s, Buffers(own)),
               ParseBuffer(boards, WordsOf(last.data)), id);
      if last.board == b {
        assert Pipelines.OfBoard(bs, b) == own + [last];
        assert Buffers(own + [last]) == Buffers(own) + [WordsOf(last.data)];
        OneMoreBuffer(boards, s, Buffers(own), WordsOf(last.data));
      } else {
        assert Pipelines.OfBoard(bs, b) == own + [] == own;
      }
    }
  }

  lemma Agrees(s: DecState, id: nat)
    ensures Agree(s, s, id)
  {
  }

  /** Board by board, a stopped run's file decodes to the events of the buffers the board kept: its reads
      in order less the counted drops. */
  lemma RecordedBoardReadsBack(cfg: Pipelines.Config, ss: seq<Pipelines.System>, acts: seq<Pipelines.Action>, i: nat,
                               boards: map<nat, BoardCfg>, s: DecState, b: nat, id: nat)
    requires Pipelines.Runs(cfg, ss, acts) && i < |ss| && ss[i].control.Finished?
    requires b < |ss[i].runners| && WholeBuffers(ss[i].file) && SpeaksAlone(boards, ss[i].file, b, id)
    ensures Agree(Advance(boards, s, ParseBuffer(boards, WordsOf(Flatten(DataOf(ss[i].file))))),
                  AfterBuffers(boards, s, Buffers(Pipelines.Kept(ss[i].runners[b].pushes))), id)
  {
    hide Pipelines.Runs, ParseBuffer, Advance, AfterBuffers, Buffers, WordsOf, Agree, DataOf, Flatten, CutBetweenAggregates,
         Pipelines.SumWritten, Pipelines.SumDrops, Bytes, SpeaksAlone, Pipelines.Kept, Pipelines.OfBoard;
    Pipelines.StoppedRunIsOnFile(cfg, ss, acts, i);
    assert Pipelines.Settled(cfg, ss[i], b);
    PayloadIsBuffers(boards, s, ss[i].file);
    BoardAlone(boards, s, ss[i].file, b, id);
  }
}
