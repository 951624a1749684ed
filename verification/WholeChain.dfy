/** Mock boards, pipeline, file and decoder in one statement. */
module WholeChain {
  import opened Words
  import opened Clocks
  import opened Parsing
  import opened Stamping
  import opened DecodingLaws
  import opened Encoding
  import opened RoundTrip
  import opened Mock
  import opened MockRuns
  import opened MockDecoding
  import opened BlockQueues
  import opened Recording
  import RawFileWriters
  import Pipelines

  /** Every buffer read from a board is one that the mock printed, from its first emission on. */
  ghost predicate MockReads(opt: Options, ems: seq<Emission>, taken: seq<Block>) {
    |ems| == |taken| && forall k :: 0 <= k < |ems| ==> PrintedBlock(opt, k, ems[k], taken[k])
  }

  ghost predicate PrintedBlock(opt: Options, n: nat, em: Emission, b: Block) {
    && EmissionOk(opt, n, em) && |EncodedEvents(opt, n, em)| < 0xFFFF_FFFA
    && b.data == BytesOf(Printed(opt, n, em))
  }

  /** A printed buffer is one whole aggregate, and speaks of its own board only. */
  lemma PrintedIsWhole(boards: map<nat, BoardCfg>, opt: Options, n: nat, em: Emission, b: Block)
    requires PrintedBlock(opt, n, em, b) && ShortTraces(opt) && MockDecoding.Registered(boards, opt)
    ensures b.data != [] && |b.data| % 4 == 0 && CutBetweenAggregates(WordsOf(b.data))
    ensures Prints(opt, n, em, WordsOf(b.data))
    ensures forall id :: id != RegId(opt) ==> DecodingLaws.OfBoard(id, ParseBuffer(boards, WordsOf(b.data)).events) == []
  {
    hide EmissionOk, EncodedEvents, Printed, ParseBuffer, RawOf, AggregateOk, EncodeAggregate, Marker, AggLength, BytesOf, WordsOf,
         ShortTraces, DecodingLaws.OfBoard;
    var w := Printed(opt, n, em);
    WordsOfBytes(w);
    IsPrinted(boards, opt, n, em);
    AggregateRead(boards, AggregateOf(opt, n, em));
    WholeIsRead(boards, w);
    EmissionParsed(boards, opt, n, em);
    forall id | id != RegId(opt)
      ensures DecodingLaws.OfBoard(id, RawOf(opt, em)) == []
    {
      RawIsOfBoard(opt, em);
      OfBoardAll(id, RegId(opt), RawOf(opt, em));
    }
  }

  lemma WholeIsRead(boards: map<nat, BoardCfg>, a: seq<Word>)
    requires WholeAggregate(a)
    ensures CutBetweenAggregates(a) && a != []
  {
    hide Marker, AggLength, ParseBuffer, ParseAggregate, Unread;
    AggregateFirst(boards, a, []);
    assert a + [] == a;
    NothingUnread();
  }

  lemma NothingUnread()
    ensures Unread([]) == []
  {
  }

  lemma RawIsOfBoard(opt: Options, em: Emission)
    ensures forall i :: 0 <= i < |RawOf(opt, em)| ==> RawOf(opt, em)[i].board == RegId(opt)
  {
    hide SamplesOf, PulseTrace, PrintedLayout;
  }

  /** Which of a board's pushes, counted from the first, the queue took. */
  function KeptNumbers(ps: seq<Pipelines.Pushed>): seq<nat> {
    if ps == [] then []
    else KeptNumbers(ps[..|ps| - 1]) + (if ps[|ps| - 1].answer.Enqueued? then [|ps| - 1] else [])
  }

  lemma {:induction false} KeptByNumber(ps: seq<Pipelines.Pushed>)
    ensures |Pipelines.Offered(ps)| == |ps| && |KeptNumbers(ps)| == |Pipelines.Kept(ps)|
    ensures forall j :: 0 <= j < |KeptNumbers(ps)| ==>
              KeptNumbers(ps)[j] < |ps| && Pipelines.Kept(ps)[j] == Pipelines.Offered(ps)[KeptNumbers(ps)[j]]
    ensures forall i, j :: 0 <= i < j < |KeptNumbers(ps)| ==> KeptNumbers(ps)[i] < KeptNumbers(ps)[j]
    ensures forall i :: 0 <= i < |ps| ==> Pipelines.Offered(ps)[i] == ps[i].block
    decreases |ps|
  {
    if ps != [] {
      KeptByNumber(ps[..|ps| - 1]);
    }
  }

  /** Without a drop, a board kept all it read. */
  lemma {:induction false} NothingDropped(ps: seq<Pipelines.Pushed>)
    requires Pipelines.NoneRefused(ps) && Pipelines.Drops(ps) == 0
    ensures KeptNumbers(ps) == Numbers(0, |ps|)
    decreases |ps|
  {
    if ps != [] {
      assert Pipelines.NoneRefused(ps[..|ps| - 1]);
      NothingDropped(ps[..|ps| - 1]);
    }
  }

  lemma {:induction false} KeptWasOffered(ps: seq<Pipelines.Pushed>, b: Block)
    requires b in Pipelines.Kept(ps)
    ensures b in Pipelines.Offered(ps)
    decreases |ps|
  {
    if ps != [] && b in Pipelines.Kept(ps[..|ps| - 1]) {
      KeptWasOffered(ps[..|ps| - 1], b);
    }
  }

  lemma {:induction false} InBoardsPart(bs: seq<Block>, i: nat)
    requires i < |bs|
    ensures bs[i] in Pipelines.OfBoard(bs, bs[i].board)
    decreases |bs|
  {
    if i < |bs| - 1 {
      InBoardsPart(bs[..|bs| - 1], i);
    }
  }

  /** The boards of a run, all of them mocks with different register ids. */
  ghost predicate AllMocks(boards: map<nat, BoardCfg>, opts: seq<Options>, runs: seq<seq<Emission>>, s: Pipelines.System) {
    && |opts| == |runs| == |s.runners|
    && (forall b :: 0 <= b < |opts| ==> ShortTraces(opts[b]) && MockDecoding.Registered(boards, opts[b]))
    && (forall b, c :: 0 <= b < c < |opts| ==> RegId(opts[b]) != RegId(opts[c]))
    && (forall b :: 0 <= b < |opts| ==> MockReads(opts[b], runs[b], s.runners[b].taken))
  }

  /** What is on file was read, hence printed. */
  lemma OnFileIsPrinted(cfg: Pipelines.Config, ss: seq<Pipelines.System>, acts: seq<Pipelines.Action>, i: nat,
                        boards: map<nat, BoardCfg>, opts: seq<Options>, runs: seq<seq<Emission>>, j: nat)
    requires Pipelines.Runs(cfg, ss, acts) && i < |ss| && ss[i].control.Finished?
    requires AllMocks(boards, opts, runs, ss[i]) && j < |ss[i].file|
    requires forall b :: 0 <= b < |cfg.writes| ==> cfg.writes[b]
    ensures var block := ss[i].file[j];
            && block.board < |opts|
            && exists k :: 0 <= k < |runs[block.board]| && PrintedBlock(opts[block.board], k, runs[block.board][k], block)
  {
    hide Pipelines.Runs, PrintedBlock, Pipelines.OfBoard, Pipelines.Kept, Pipelines.Offered, Pipelines.Drops, Bytes, RegId,
         Pipelines.SumDrops, Pipelines.SumWritten, ShortTraces;
    Pipelines.StoppedRunIsOnFile(cfg, ss, acts, i);
    Pipelines.AcceptedBoards(cfg, ss, acts, i);
    var block := ss[i].file[j];
    var r := ss[i].runners[block.board];
    assert Pipelines.Settled(cfg, ss[i], block.board);
    InBoardsPart(ss[i].file, j);
    KeptWasOffered(r.pushes, block);
    var k :| 0 <= k < |r.taken| && r.taken[k] == block;
    assert PrintedBlock(opts[block.board], k, runs[block.board][k], r.taken[k]);
  }

  /** So the file consists of whole buffers, and each board speaks alone. */
  lemma FileIsWhole(cfg: Pipelines.Config, ss: seq<Pipelines.System>, acts: seq<Pipelines.Action>, i: nat,
                    boards: map<nat, BoardCfg>, opts: seq<Options>, runs: seq<seq<Emission>>, b: nat)
    requires Pipelines.Runs(cfg, ss, acts) && i < |ss| && ss[i].control.Finished?
    requires AllMocks(boards, opts, runs, ss[i]) && b < |opts|
    requires forall b :: 0 <= b < |cfg.writes| ==> cfg.writes[b]
    ensures WholeBuffers(ss[i].file) && SpeaksAlone(boards, ss[i].file, b, RegId(opts[b]))
  {
    hide Pipelines.Runs, PrintedBlock, ParseBuffer, CutBetweenAggregates, WordsOf, Prints, RegId, ShortTraces, MockDecoding.Registered,
         DecodingLaws.OfBoard, MockReads;
    forall j | 0 <= j < |ss[i].file|
      ensures var x := ss[i].file[j];
              && x.data != [] && |x.data| % 4 == 0 && CutBetweenAggregates(WordsOf(x.data))
              && (x.board != b ==> DecodingLaws.OfBoard(RegId(opts[b]), ParseBuffer(boards, WordsOf(x.data)).events) == [])
    {
      var x := ss[i].file[j];
      OnFileIsPrinted(cfg, ss, acts, i, boards, opts, runs, j);
      var k :| 0 <= k < |runs[x.board]| && PrintedBlock(opts[x.board], k, runs[x.board][k], x);
      PrintedIsWhole(boards, opts[x.board], k, runs[x.board][k], x);
    }
  }

  lemma {:induction false} GeneratedIsOfBoard(opt: Options, ems: seq<Emission>)
    requires forall i :: 0 <= i < |ems| ==> |ems[i].ticks| == |ems[i].fields|
    ensures DecodedOfBoard(RegId(opt), GeneratedEvents(opt, ems)) == GeneratedEvents(opt, ems)
    decreases |ems|
  {
    hide RawOf, AtTimes, RegId, DecodedOfBoard;
    if ems == [] {
      NoDecoded(RegId(opt));
    } else {
      GeneratedIsOfBoard(opt, ems[1..]);
      RawCount(opt, ems[0]);
      OneEmissionOfBoard(opt, ems[0]);
      DecodedOfBoardAppends(RegId(opt), AtTimes(RawOf(opt, ems[0]), ems[0].ticks, 2000), GeneratedEvents(opt, ems[1..]));
    }
  }

  lemma NoDecoded(id: nat)
    ensures DecodedOfBoard(id, []) == []
  {
  }

  lemma OneEmissionOfBoard(opt: Options, em: Emission)
    requires |em.ticks| == |RawOf(opt, em)|
    ensures DecodedOfBoard(RegId(opt), AtTimes(RawOf(opt, em), em.ticks, 2000)) == AtTimes(RawOf(opt, em), em.ticks, 2000)
  {
    hide RawOf;
    RawIsOfBoard(opt, em);
    AllOfBoard(RegId(opt), AtTimes(RawOf(opt, em), em.ticks, 2000));
  }

  lemma {:induction false} AllOfBoard(id: nat, evs: seq<DecodedEvent>)
    requires forall i :: 0 <= i < |evs| ==> evs[i].board == id
    ensures DecodedOfBoard(id, evs) == evs
    decreases |evs|
  {
    if evs != [] {
      AllOfBoard(id, evs[1..]);
      assert [evs[0]] + evs[1..] == evs;
    }
  }

  /** The emissions of the buffers that were kept. */
  function KeptOf(ems: seq<Emission>, ns: seq<nat>): seq<Emission>
    requires forall j :: 0 <= j < |ns| ==> ns[j] < |ems|
  {
    seq(|ns|, j requires 0 <= j < |ns| => ems[ns[j]])
  }

  lemma KeptPrints(boards: map<nat, BoardCfg>, opt: Options, ems: seq<Emission>, ps: seq<Pipelines.Pushed>)
    requires MockReads(opt, ems, Pipelines.Offered(ps)) && ShortTraces(opt) && MockDecoding.Registered(boards, opt)
    ensures |ems| == |ps| && forall j :: 0 <= j < |KeptNumbers(ps)| ==> KeptNumbers(ps)[j] < |ems|
    ensures RunOk(opt, KeptNumbers(ps), KeptOf(ems, KeptNumbers(ps)), Buffers(Pipelines.Kept(ps)))
  {
    hide PrintedBlock, Prints, WordsOf, CutBetweenAggregates, ParseBuffer, DecodingLaws.OfBoard, Pipelines.Kept, Pipelines.Offered,
         KeptNumbers, ShortTraces, MockDecoding.Registered;
    KeptByNumber(ps);
    var ns, kept, taken := KeptNumbers(ps), Pipelines.Kept(ps), Pipelines.Offered(ps);
    forall j | 0 <= j < |ns|
      ensures Prints(opt, ns[j], KeptOf(ems, ns)[j], Buffers(kept)[j])
    {
      assert kept[j] == taken[ns[j]];
      assert PrintedBlock(opt, ns[j], ems[ns[j]], taken[ns[j]]);
      PrintedIsWhole(boards, opt, ns[j], ems[ns[j]], taken[ns[j]]);
    }
  }

  /** Any number of mock boards, any interleaving of their readers with the writer and the stop: decoding
      the one file they share gives, for every board whose dropped blocks left only short gaps, exactly the
      events of the blocks it kept, in order, each at its true time. */
  lemma RecordedKeptReadBack(cfg: Pipelines.Config, ss: seq<Pipelines.System>, acts: seq<Pipelines.Action>, i: nat,
                             boards: map<nat, BoardCfg>, opts: seq<Options>, runs: seq<seq<Emission>>, b: nat)
    requires Pipelines.Runs(cfg, ss, acts) && i < |ss| && ss[i].control.Finished?
    requires forall b :: 0 <= b < |cfg.writes| ==> cfg.writes[b]
    requires AllMocks(boards, opts, runs, ss[i]) && b < |opts|
    requires var ns := KeptNumbers(ss[i].runners[b].pushes); GapsShort(opts[b], -1, ns) && InTime(opts[b], ns)
    ensures WholeBuffers(ss[i].file)
    ensures var ns := KeptNumbers(ss[i].runners[b].pushes);
            var payload := WordsOf(RawFileWriters.Flatten(RawFileWriters.DataOf(ss[i].file)));
            && (forall j :: 0 <= j < |ns| ==> ns[j] < |runs[b]|)
            && var kept := KeptOf(runs[b], ns);
               && (forall k :: 0 <= k < |kept| ==> |kept[k].ticks| == |kept[k].fields|)
               && DecodedOfBoard(RegId(opts[b]), Advance(boards, INITIAL, ParseBuffer(boards, payload)).events) ==
                  GeneratedEvents(opts[b], kept)
  {
    hide Pipelines.Runs, ParseBuffer, Advance, AfterBuffers, WordsOf, Pipelines.Kept, Pipelines.Offered, Pipelines.Drops, Bytes,
         Pipelines.SumDrops, Pipelines.SumWritten, Pipelines.OfBoard, GeneratedEvents, DecodedOfBoard, RegId, Period, ShortTraces,
         MockDecoding.Registered, PrintedBlock, RawFileWriters.Flatten, RawFileWriters.DataOf, CutBetweenAggregates, SpeaksAlone,
         RunOk, GapsShort, InTime, KeptNumbers, KeptOf, Buffers, MockReads;
    var opt, ems, r := opts[b], runs[b], ss[i].runners[b];
    Pipelines.StoppedRunIsOnFile(cfg, ss, acts, i);
    assert Pipelines.Settled(cfg, ss[i], b);
    FileIsWhole(cfg, ss, acts, i, boards, opts, runs, b);
    RecordedBoardReadsBack(cfg, ss, acts, i, boards, INITIAL, b, RegId(opt));
    KeptPrints(boards, opt, ems, r.pushes);
    var kept := KeptOf(ems, KeptNumbers(r.pushes));
    FreshRunDecodes(boards, INITIAL, opt, KeptNumbers(r.pushes), kept, Buffers(Pipelines.Kept(r.pushes)));
    GeneratedIsOfBoard(opt, kept);
    assert INITIAL.events + GeneratedEvents(opt, kept) == GeneratedEvents(opt, kept);
  }

  /** For a board without a drop these are all the events it generated, at every rate. */
  lemma RecordedMocksReadBack(cfg: Pipelines.Config, ss: seq<Pipelines.System>, acts: seq<Pipelines.Action>, i: nat,
                              boards: map<nat, BoardCfg>, opts: seq<Options>, runs: seq<seq<Emission>>, b: nat)
    requires Pipelines.Runs(cfg, ss, acts) && i < |ss| && ss[i].control.Finished?
    requires forall b :: 0 <= b < |cfg.writes| ==> cfg.writes[b]
    requires AllMocks(boards, opts, runs, ss[i]) && b < |opts|
    requires ss[i].runners[b].blocksDropped == 0 && |runs[b]| * Period(opts[b]) <= 0x20_0000_0000_0000
    ensures WholeBuffers(ss[i].file) && forall k :: 0 <= k < |runs[b]| ==> |runs[b][k].ticks| == |runs[b][k].fields|
    ensures var payload := WordsOf(RawFileWriters.Flatten(RawFileWriters.DataOf(ss[i].file)));
            DecodedOfBoard(RegId(opts[b]), Advance(boards, INITIAL, ParseBuffer(boards, payload)).events) ==
            GeneratedEvents(opts[b], runs[b])
  {
    hide Pipelines.Runs, ParseBuffer, Advance, AfterBuffers, WordsOf, Pipelines.Kept, Pipelines.Offered, Pipelines.Drops, Bytes,
         Pipelines.SumDrops, Pipelines.SumWritten, Pipelines.OfBoard, GeneratedEvents, DecodedOfBoard, RegId, Period, ShortTraces,
         MockDecoding.Registered, PrintedBlock, RawFileWriters.Flatten, RawFileWriters.DataOf, CutBetweenAggregates,
         GapsShort, InTime, KeptNumbers, Numbers, WholeBuffers;
    var opt, ems, ps := opts[b], runs[b], ss[i].runners[b].pushes;
    Pipelines.StoppedRunIsOnFile(cfg, ss, acts, i);
    assert Pipelines.Settled(cfg, ss[i], b);
    KeptByNumber(ps);
    NothingDropped(ps);
    NumbersGapsShort(opt, 0, |ems|);
    NumbersInTime(opt, 0, |ems|);
    RecordedKeptReadBack(cfg, ss, acts, i, boards, opts, runs, b);
    AllKept(ems);
  }

  lemma AllKept(ems: seq<Emission>)
    ensures (forall j :: 0 <= j < |Numbers(0, |ems|)| ==> Numbers(0, |ems|)[j] < |ems|) && KeptOf(ems, Numbers(0, |ems|)) == ems
  {
  }
}
