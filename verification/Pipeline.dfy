/** A run from the first read to the closed file: one reader thread per board, one writer thread and the
    thread that stops the run, in every interleaving. */
module Pipelines {
  import opened Words
  import opened BlockQueues

  /** What a board's reading thread is doing; after the reader has been joined, the stopping thread
      takes its place to drain the board. */
  datatype Stage = Idle | Reading | Holding(block: Block) | Waiting(block: Block) | Answered(block: Block, accepted: bool)

  /** One push to the write queue and how it was answered. */
  datatype Pushed = Pushed(block: Block, answer: PushAnswer)

  datatype Runner = Runner(
    running: bool, readerUp: bool, stage: Stage,
    taken: seq<Block>, pushes: seq<Pushed>,
    buffersRead: nat, bytesRead: nat, bytesWritten: nat, blocksDropped: nat)

  datatype Writer = Polling | Writing(block: Block) | Done

  /** Where the thread that stops the run is: board by board, then the queue, the writer, the file. */
  datatype Control = Acquiring | Clearing(j: nat) | Joining(j: nat) | Draining(j: nat, n: nat)
                   | ClosingQueue | JoiningWriter | Finished

  datatype System = System(queue: Queue, runners: seq<Runner>, writer: Writer, control: Control,
                           accepted: seq<Block>, file: seq<Block>)

  /** Which boards write to the file. */
  datatype Config = Config(writes: seq<bool>, capacity: nat)

  predicate ToFile(cfg: Config, b: nat) { b < |cfg.writes| && cfg.writes[b] }

  const MAX_DRAIN_READS: nat := 1000

  datatype Action =
    | ReaderTests(b: nat)                    // the loop test: running?
    | ReadReturns(b: nat, data: seq<Byte>)   // nothing pending or a communication error reads as []
    | ReaderThrows(b: nat)
    | Pushes(b: nat)
    | PushResumes(b: nat, timedOut: bool)
    | Counts(b: nat)
    | WriterPops(timedOut: bool)
    | WriterWrites
    | BeginsStop
    | ClearsRunning
    | JoinsReader
    | DrainReads(data: seq<Byte>)
    | DrainGivesUp                           // 1000 reads, or two seconds
    | ClosesQueue
    | JoinsWriter

  // ----- steps -----

  predicate InRange(s: System, b: nat) { b < |s.runners| }

  predicate Enabled(cfg: Config, s: System, a: Action) {
    match a
    case ReaderTests(b) => InRange(s, b) && s.runners[b].readerUp && s.runners[b].stage.Idle?
    case ReadReturns(b, data) => InRange(s, b) && s.runners[b].stage.Reading?
    case ReaderThrows(b) => InRange(s, b) && s.runners[b].stage.Reading?
    case Pushes(b) => InRange(s, b) && s.runners[b].stage.Holding?
    case PushResumes(b, timedOut) => InRange(s, b) && s.runners[b].stage.Waiting?
    case Counts(b) => InRange(s, b) && s.runners[b].stage.Answered?
    case WriterPops(timedOut) => s.writer.Polling?
    case WriterWrites => s.writer.Writing?
    case BeginsStop => s.control.Acquiring?
    case ClearsRunning => s.control.Clearing?
    case JoinsReader => s.control.Joining? && InRange(s, s.control.j) && !s.runners[s.control.j].readerUp
    case DrainReads(data) =>
      s.control.Draining? && s.control.n < MAX_DRAIN_READS && InRange(s, s.control.j) && s.runners[s.control.j].stage.Idle?
    case DrainGivesUp => s.control.Draining? && InRange(s, s.control.j) && s.runners[s.control.j].stage.Idle?
    case ClosesQueue => s.control.ClosingQueue?
    case JoinsWriter => s.control.JoiningWriter? && s.writer.Done?
  }

  function WithRunner(s: System, b: nat, r: Runner): System
    requires InRange(s, b)
  {
    s.(runners := s.runners[b := r])
  }

  /** A buffer has been read: it is counted, and in hand. */
  function Took(r: Runner, block: Block): Runner {
    r.(stage := Holding(block), taken := r.taken + [block],
       buffersRead := r.buffersRead + 1, bytesRead := r.bytesRead + |block.data|)
  }

  /** The runner after a push answered `a`. */
  function AfterAnswer(r: Runner, block: Block, a: PushAnswer): Runner {
    if a.Waits? then r.(stage := Waiting(block))
    else r.(stage := Answered(block, a.Enqueued?), pushes := r.pushes + [Pushed(block, a)])
  }

  function Push(s: System, b: nat, block: Block, woken: bool, timedOut: bool): System
    requires InRange(s, b)
  {
    var a := PushAnswerOf(s.queue, woken, timedOut);
    WithRunner(s, b, AfterAnswer(s.runners[b], block, a))
      .(queue := AfterPush(s.queue, block, a),
        accepted := if a.Enqueued? then s.accepted + [block] else s.accepted)
  }

  function Next(cfg: Config, s: System, a: Action): System
    requires Enabled(cfg, s, a)
  {
    match a
    case ReaderTests(b) =>
      var r := s.runners[b];
      WithRunner(s, b, if r.running then r.(stage := Reading) else r.(readerUp := false))
    case ReadReturns(b, data) =>
      var r := s.runners[b];
      WithRunner(s, b, if data == [] then r.(stage := Idle) else Took(r, Block(b, data)))
    case ReaderThrows(b) => WithRunner(s, b, s.runners[b].(stage := Idle, readerUp := false))
    case Pushes(b) =>
      var r := s.runners[b];
      if ToFile(cfg, b) then Push(s, b, r.stage.block, false, false) else WithRunner(s, b, r.(stage := Idle))
    case PushResumes(b, timedOut) => Push(s, b, s.runners[b].stage.block, true, timedOut)
    case Counts(b) =>
      var r := s.runners[b];
      WithRunner(s, b,
        if r.stage.accepted then r.(stage := Idle, bytesWritten := r.bytesWritten + |r.stage.block.data|)
        else r.(stage := Idle, blocksDropped := r.blocksDropped + 1))
    case WriterPops(timedOut) =>
      var p := PopAnswerOf(s.queue, true, timedOut);
      s.(queue := AfterPop(s.queue, p),
         writer := match p case Popped(b) => Writing(b) case Drained => Done case _ => Polling)
    case WriterWrites => s.(writer := Polling, file := s.file + [s.writer.block])
    case BeginsStop => s.(control := Clearing(0))
    case ClearsRunning =>
      var j := s.control.j;
      if j < |s.runners| then WithRunner(s, j, s.runners[j].(running := false)).(control := Joining(j))
      else s.(control := ClosingQueue)
    case JoinsReader => s.(control := Draining(s.control.j, 0))
    case DrainReads(data) =>
      var j := s.control.j;
      if data == [] then s.(control := Clearing(j + 1))
      else WithRunner(s, j, Took(s.runners[j], Block(j, data))).(control := Draining(j, s.control.n + 1))
    case DrainGivesUp => s.(control := Clearing(s.control.j + 1))
    case ClosesQueue => s.(queue := s.queue.(closed := true), control := JoiningWriter)
    case JoinsWriter => s.(control := Finished)
  }

  const STARTED := Runner(true, true, Idle, [], [], 0, 0, 0, 0)

  /** A started run. Without a writing board there is no writer thread. */
  predicate Init(cfg: Config, s: System) {
    && cfg.capacity > 0
    && s.queue == Queue(cfg.capacity, [], false, 0, 0)
    && |s.runners| == |cfg.writes|
    && (forall b :: 0 <= b < |s.runners| ==> s.runners[b] == STARTED)
    && s.writer == (if true in cfg.writes then Polling else Done)
    && s.control == Acquiring && s.accepted == [] && s.file == []
  }

  // ----- histories -----

  function OfBoard(bs: seq<Block>, b: nat): seq<Block> {
    if bs == [] then []
    else OfBoard(bs[..|bs| - 1], b) + (if bs[|bs| - 1].board == b then [bs[|bs| - 1]] else [])
  }

  /** The blocks of the pushes, in order. */
  function Offered(ps: seq<Pushed>): seq<Block> {
    if ps == [] then [] else Offered(ps[..|ps| - 1]) + [ps[|ps| - 1].block]
  }

  /** Those that the queue took, in order. */
  function Kept(ps: seq<Pushed>): seq<Block> {
    if ps == [] then []
    else Kept(ps[..|ps| - 1]) + (if ps[|ps| - 1].answer.Enqueued? then [ps[|ps| - 1].block] else [])
  }

  function Drops(ps: seq<Pushed>): nat {
    if ps == [] then 0 else Drops(ps[..|ps| - 1]) + (if ps[|ps| - 1].answer.Dropped? then 1 else 0)
  }

  lemma OneMorePush(ps: seq<Pushed>, p: Pushed)
    ensures Offered(ps + [p]) == Offered(ps) + [p.block]
    ensures Kept(ps + [p]) == if p.answer.Enqueued? then Kept(ps) + [p.block] else Kept(ps)
    ensures Drops(ps + [p]) == Drops(ps) + (if p.answer.Dropped? then 1 else 0)
  {
    assert (ps + [p])[..|ps|] == ps;
  }

  lemma OneMoreBlock(bs: seq<Block>, block: Block, b: nat)
    ensures OfBoard(bs + [block], b) == if block.board == b then OfBoard(bs, b) + [block] else OfBoard(bs, b)
    ensures Bytes(bs + [block]) == Bytes(bs) + |block.data|
  {
    assert (bs + [block])[..|bs|] == bs;
    OneBlock(bs, block);
  }

  // ----- what every state of every run satisfies -----

  function InHand(st: Stage): seq<Block> {
    if st.Holding? || st.Waiting? then [st.block] else []
  }

  function UncountedBytes(st: Stage): nat { if st.Answered? && st.accepted then |st.block.data| else 0 }
  function UncountedDrops(st: Stage): nat { if st.Answered? && !st.accepted then 1 else 0 }

  predicate NoneRefused(ps: seq<Pushed>) {
    forall i :: 0 <= i < |ps| ==> ps[i].answer.Enqueued? || ps[i].answer.Dropped?
  }

  /** The books of one board: its reads are its pushes and the buffer in hand; its counters follow. */
  predicate Books(writes: bool, r: Runner) {
    && (if writes then r.taken == Offered(r.pushes) + InHand(r.stage)
        else r.pushes == [] && !r.stage.Waiting? && !r.stage.Answered?)
    && r.buffersRead == |r.taken| && r.bytesRead == Bytes(r.taken)
    && r.bytesWritten + UncountedBytes(r.stage) == Bytes(Kept(r.pushes))
    && r.blocksDropped + UncountedDrops(r.stage) == Drops(r.pushes)
    && NoneRefused(r.pushes)
  }

  /** The buffer being handled is the board's own, and not empty. */
  predicate OwnBlock(b: nat, st: Stage) {
    st.Holding? || st.Waiting? || st.Answered? ==> st.block.board == b && st.block.data != []
  }

  /** What the queue took of the board is what its books say. */
  predicate Owns(b: nat, r: Runner, accepted: seq<Block>) {
    && OwnBlock(b, r.stage)
    && OfBoard(accepted, b) == Kept(r.pushes)
  }

  /** How far the stop has got with board `b`. */
  predicate Progress(c: Control, b: nat, r: Runner) {
    var quiet := r.stage.Idle? && !r.readerUp && !r.running;
    && (r.stage.Reading? ==> r.readerUp)
    && (!r.readerUp && !r.stage.Idle? ==> c.Draining? && c.j == b)
    && match c
       case Acquiring => true
       case Clearing(j) => b < j ==> quiet
       case Joining(j) => (b < j ==> quiet) && (b == j ==> !r.running)
       case Draining(j, n) => (b < j ==> quiet) && (b == j ==> !r.running && !r.readerUp)
       case _ => quiet
  }

  predicate ClosedBy(c: Control) { c.JoiningWriter? || c.Finished? }

  predicate ControlInv(cfg: Config, s: System) {
    && |s.runners| == |cfg.writes|
    && (s.control.Joining? || s.control.Draining? ==> s.control.j < |s.runners|)
    && (s.control.Clearing? ==> s.control.j <= |s.runners|)
    && (s.queue.closed <==> ClosedBy(s.control))
    && (s.writer.Done? ==> s.queue.items == [] && (s.queue.closed || true !in cfg.writes))
    && (s.control.Finished? ==> s.writer.Done?)
    && s.queue.capacity == cfg.capacity > 0
    && |s.queue.items| <= s.queue.capacity
  }

  function AtWriter(w: Writer): seq<Block> { if w.Writing? then [w.block] else [] }

  /** Nothing accepted is lost, duplicated or reordered on its way to the file. */
  predicate Flow(s: System) {
    s.accepted == s.file + AtWriter(s.writer) + s.queue.items
  }

  predicate RunnerInv(cfg: Config, s: System, b: nat)
    requires b < |s.runners| == |cfg.writes|
  {
    Books(cfg.writes[b], s.runners[b]) && Owns(b, s.runners[b], s.accepted) && Progress(s.control, b, s.runners[b])
  }

  predicate Inv(cfg: Config, s: System) {
    && ControlInv(cfg, s) && Flow(s)
    && forall b :: 0 <= b < |s.runners| ==> RunnerInv(cfg, s, b)
  }

  lemma InitInv(cfg: Config, s: System)
    requires Init(cfg, s)
    ensures Inv(cfg, s)
  {
    hide Books, Bytes;
    NoBooks();
    assert Flow(s) by {
      assert s.accepted == [] + [] + [];
    }
    forall b | 0 <= b < |s.runners|
      ensures RunnerInv(cfg, s, b)
    {
      assert s.runners[b] == STARTED;
    }
  }

  lemma NoBooks()
    ensures Books(true, STARTED) && Books(false, STARTED)
  {
    assert [] == Offered([]) + [];
  }

  /** The other boards do not notice a change of runner `b`, as long as the accepted blocks are the same
      or grow by one of board `b`, and the stop is where it was for them. */
  lemma OthersKeep(cfg: Config, s: System, s': System, b: nat, more: seq<Block>)
    requires |s'.runners| == |s.runners| == |cfg.writes| && b < |s.runners| && s'.runners == s.runners[b := s'.runners[b]]
    requires forall c :: 0 <= c < |s.runners| ==> RunnerInv(cfg, s, c)
    requires s'.accepted == s.accepted + more && (more == [] || (|more| == 1 && more[0].board == b))
    requires forall c :: 0 <= c < |s.runners| && c != b && Progress(s.control, c, s.runners[c]) ==> Progress(s'.control, c, s.runners[c])
    requires RunnerInv(cfg, s', b)
    ensures forall c :: 0 <= c < |s'.runners| ==> RunnerInv(cfg, s', c)
  {
    hide Books, Progress, OfBoard;
    forall c | 0 <= c < |s'.runners|
      ensures RunnerInv(cfg, s', c)
    {
      assert RunnerInv(cfg, s, c);
      if c != b {
        if more == [] {
          assert s.accepted + more == s.accepted;
        } else {
          OneMoreBlock(s.accepted, more[0], c);
          assert more == [more[0]];
        }
      }
    }
  }

  lemma PushKeepsBooks(r: Runner, block: Block, a: PushAnswer)
    requires Books(true, r) && InHand(r.stage) == [block] && !a.Refused?
    ensures Books(true, AfterAnswer(r, block, a))
  {
    hide Bytes, Offered, Kept, Drops;
    if !a.Waits? {
      OneMorePush(r.pushes, Pushed(block, a));
      OneBlock(Kept(r.pushes), block);
      assert Offered(r.pushes) + [block] + [] == Offered(r.pushes) + [block];
    }
  }

  lemma PushKeepsInv(cfg: Config, s: System, b: nat, block: Block, woken: bool, timedOut: bool)
    requires Inv(cfg, s) && InRange(s, b) && cfg.writes[b] && InHand(s.runners[b].stage) == [block]
    ensures Inv(cfg, Push(s, b, block, woken, timedOut))
  {
    hide Books, OfBoard, Kept, Bytes;
    assert RunnerInv(cfg, s, b);
    var r, a := s.runners[b], PushAnswerOf(s.queue, woken, timedOut);
    var s' := Push(s, b, block, woken, timedOut);
    PushKeepsBooks(r, block, a);
    OneMoreBlock(s.accepted, block, b);
    OneMorePush(r.pushes, Pushed(block, a));
    PushProgress(s.control, b, r, block, a);
    assert Owns(b, s'.runners[b], s'.accepted);
    OthersKeep(cfg, s, s', b, if a.Enqueued? then [block] else []);
    assert Flow(s') by {
      assert (s.file + AtWriter(s.writer) + s.queue.items) + [block] == s.file + AtWriter(s.writer) + (s.queue.items + [block]);
    }
  }

  lemma PushProgress(c: Control, b: nat, r: Runner, block: Block, a: PushAnswer)
    requires Progress(c, b, r) && InHand(r.stage) == [block]
    ensures Progress(c, b, AfterAnswer(r, block, a)) && !ClosedBy(c)
  {
  }

  /** A step that changes one runner and perhaps where the stop is, but not the queue. */
  lemma LocalStepKeepsInv(cfg: Config, s: System, b: nat, r': Runner, c': Control)
    requires Inv(cfg, s) && InRange(s, b)
    requires Books(cfg.writes[b], r') && r'.pushes == s.runners[b].pushes
    requires OwnBlock(b, r'.stage)
    requires Progress(c', b, r')
    requires forall c :: 0 <= c < |s.runners| && c != b && Progress(s.control, c, s.runners[c]) ==> Progress(c', c, s.runners[c])
    requires ControlInv(cfg, WithRunner(s, b, r').(control := c'))
    ensures Inv(cfg, WithRunner(s, b, r').(control := c'))
  {
    hide Books, Progress, OfBoard, Kept, ControlInv;
    SameSize(cfg, s);
    var s' := WithRunner(s, b, r').(control := c');
    assert RunnerInv(cfg, s, b);
    assert s.accepted + [] == s.accepted;
    OthersKeep(cfg, s, s', b, []);
  }

  lemma SameSize(cfg: Config, s: System)
    requires ControlInv(cfg, s)
    ensures |s.runners| == |cfg.writes|
  {
  }

  /** The runner's own steps. */
  lemma RunnerStepKeepsInv(cfg: Config, s: System, b: nat, r': Runner)
    requires Inv(cfg, s) && InRange(s, b)
    requires Books(cfg.writes[b], r') && r'.pushes == s.runners[b].pushes
    requires OwnBlock(b, r'.stage)
    requires Progress(s.control, b, r')
    ensures Inv(cfg, WithRunner(s, b, r'))
  {
    hide Books, Progress, RunnerInv, Flow;
    LocalStepKeepsInv(cfg, s, b, r', s.control);
    assert WithRunner(s, b, r').(control := s.control) == WithRunner(s, b, r');
  }

  lemma ReadKeepsBooks(writes: bool, r: Runner, block: Block)
    requires Books(writes, r) && (r.stage.Idle? || r.stage.Reading?)
    ensures Books(writes, Took(r, block)) && Books(writes, r.(stage := Idle)) && Books(writes, r.(stage := Reading))
  {
    hide Bytes, Offered, Kept, Drops;
    OneBlock(r.taken, block);
    assert Offered(r.pushes) + [] == Offered(r.pushes);
  }

  lemma CountKeepsBooks(writes: bool, r: Runner)
    requires Books(writes, r) && r.stage.Answered?
    ensures Books(writes, if r.stage.accepted then r.(stage := Idle, bytesWritten := r.bytesWritten + |r.stage.block.data|)
                          else r.(stage := Idle, blocksDropped := r.blocksDropped + 1))
  {
    hide Bytes, Offered, Kept, Drops;
  }

  lemma ReaderStepKeepsInv(cfg: Config, s: System, a: Action)
    requires Inv(cfg, s) && Enabled(cfg, s, a)
    requires a.ReaderTests? || a.ReadReturns? || a.ReaderThrows?
    ensures Inv(cfg, Next(cfg, s, a))
  {
    hide Books, OfBoard, Kept, ControlInv, Flow, Owns;
    SameSize(cfg, s);
    var b := a.b;
    assert RunnerInv(cfg, s, b);
    var r := s.runners[b];
    ReadKeepsBooks(cfg.writes[b], r, if a.ReadReturns? then Block(b, a.data) else Block(b, []));
    BooksIgnoreReader(cfg.writes[b], r);
    BooksIgnoreReader(cfg.writes[b], r.(stage := Idle));
    var s' := Next(cfg, s, a);
    RunnerStepKeepsInv(cfg, s, b, s'.runners[b]);
    assert s' == WithRunner(s, b, s'.runners[b]);
  }

  lemma BooksIgnoreReader(writes: bool, r: Runner)
    ensures forall running, up :: Books(writes, r.(running := running, readerUp := up)) <==> Books(writes, r)
  {
    hide Bytes, Offered, Kept, Drops;
  }

  lemma PushOrCountKeepsInv(cfg: Config, s: System, a: Action)
    requires Inv(cfg, s) && Enabled(cfg, s, a)
    requires a.Pushes? || a.PushResumes? || a.Counts?
    ensures Inv(cfg, Next(cfg, s, a))
  {
    hide OfBoard, Kept, ControlInv, Flow, Offered, Drops, Bytes;
    SameSize(cfg, s);
    var b := a.b;
    assert RunnerInv(cfg, s, b);
    var r := s.runners[b];
    if a.Counts? {
      CountKeepsBooks(cfg.writes[b], r);
      var s' := Next(cfg, s, a);
      RunnerStepKeepsInv(cfg, s, b, s'.runners[b]);
    } else if cfg.writes[b] {
      PushKeepsInv(cfg, s, b, r.stage.block, a.PushResumes?, if a.PushResumes? then a.timedOut else false);
    } else {
      RunnerStepKeepsInv(cfg, s, b, r.(stage := Idle));
    }
  }

  lemma WriterStepKeepsInv(cfg: Config, s: System, a: Action)
    requires Inv(cfg, s) && Enabled(cfg, s, a)
    requires a.WriterPops? || a.WriterWrites?
    ensures Inv(cfg, Next(cfg, s, a))
  {
    hide Books, OfBoard, Kept, Bytes, Progress;
    var s' := Next(cfg, s, a);
    SameRunners(cfg, s, s');
    if a.WriterPops? {
      if s.queue.items != [] {
        assert s.file + [] + s.queue.items == s.file + [s.queue.items[0]] + s.queue.items[1..];
      }
    } else {
      assert s.file + [s.writer.block] + s.queue.items == s'.file + [] + s.queue.items;
    }
  }

  lemma SameRunners(cfg: Config, s: System, s': System)
    requires |s.runners| == |cfg.writes| && s'.runners == s.runners && s'.accepted == s.accepted
    requires forall b :: 0 <= b < |s.runners| ==> RunnerInv(cfg, s, b)
    requires forall b :: 0 <= b < |s.runners| && Progress(s.control, b, s.runners[b]) ==> Progress(s'.control, b, s.runners[b])
    ensures forall b :: 0 <= b < |s.runners| ==> RunnerInv(cfg, s', b)
  {
    hide Books, Progress, Owns;
    forall b | 0 <= b < |s.runners|
      ensures RunnerInv(cfg, s', b)
    {
      assert RunnerInv(cfg, s, b);
    }
  }

  /** The stop moves on without touching a runner. */
  lemma StopStepKeepsInv(cfg: Config, s: System, a: Action)
    requires Inv(cfg, s) && Enabled(cfg, s, a)
    requires a.BeginsStop? || a.JoinsReader? || a.DrainGivesUp? || a.ClosesQueue? || a.JoinsWriter?
             || (a.ClearsRunning? && s.control.j == |s.runners|) || (a.DrainReads? && a.data == [])
    ensures Inv(cfg, Next(cfg, s, a))
  {
    hide Books, Owns;
    var s' := Next(cfg, s, a);
    forall b | 0 <= b < |s.runners|
      ensures Progress(s.control, b, s.runners[b]) ==> Progress(s'.control, b, s.runners[b])
    {
    }
    SameRunners(cfg, s, s');
  }

  /** The stop clears a running flag, or takes a buffer out of the stopped board. */
  lemma StopBoardKeepsInv(cfg: Config, s: System, a: Action)
    requires Inv(cfg, s) && Enabled(cfg, s, a)
    requires (a.ClearsRunning? && s.control.j < |s.runners|) || (a.DrainReads? && a.data != [])
    ensures Inv(cfg, Next(cfg, s, a))
  {
    hide Books, OfBoard, Kept, Flow;
    SameSize(cfg, s);
    var j := s.control.j;
    assert RunnerInv(cfg, s, j);
    var r := s.runners[j];
    if a.DrainReads? {
      ReadKeepsBooks(cfg.writes[j], r, Block(j, a.data));
    } else {
      BooksIgnoreReader(cfg.writes[j], r);
    }
    var s' := Next(cfg, s, a);
    LocalStepKeepsInv(cfg, s, j, s'.runners[j], s'.control);
  }

  lemma NextKeepsInv(cfg: Config, s: System, a: Action)
    requires Inv(cfg, s) && Enabled(cfg, s, a)
    ensures Inv(cfg, Next(cfg, s, a))
  {
    hide Next, RunnerInv, Flow;
    match a
    case ReaderTests(_) => ReaderStepKeepsInv(cfg, s, a);
    case ReadReturns(_, _) => ReaderStepKeepsInv(cfg, s, a);
    case ReaderThrows(_) => ReaderStepKeepsInv(cfg, s, a);
    case Pushes(_) => PushOrCountKeepsInv(cfg, s, a);
    case PushResumes(_, _) => PushOrCountKeepsInv(cfg, s, a);
    case Counts(_) => PushOrCountKeepsInv(cfg, s, a);
    case WriterPops(_) => WriterStepKeepsInv(cfg, s, a);
    case WriterWrites => WriterStepKeepsInv(cfg, s, a);
    case ClearsRunning =>
      if s.control.j == |s.runners| {
        StopStepKeepsInv(cfg, s, a);
      } else {
        StopBoardKeepsInv(cfg, s, a);
      }
    case DrainReads(data) =>
      if data == [] {
        StopStepKeepsInv(cfg, s, a);
      } else {
        StopBoardKeepsInv(cfg, s, a);
      }
    case _ => StopStepKeepsInv(cfg, s, a);
  }

  /** A run: any number of boards, any interleaving, any data, any timeouts. */
  predicate Runs(cfg: Config, ss: seq<System>, acts: seq<Action>) {
    && |ss| == |acts| + 1 && Init(cfg, ss[0])
    && forall i :: 0 <= i < |acts| ==> Enabled(cfg, ss[i], acts[i]) && ss[i + 1] == Next(cfg, ss[i], acts[i])
  }

  lemma {:induction false} AlwaysInv(cfg: Config, ss: seq<System>, acts: seq<Action>, i: nat)
    requires Runs(cfg, ss, acts) && i < |ss|
    ensures Inv(cfg, ss[i])
    decreases i
  {
    hide Enabled, Next, Inv, Init;
    if i == 0 {
      InitInv(cfg, ss[0]);
    } else {
      AlwaysInv(cfg, ss, acts, i - 1);
      NextKeepsInv(cfg, ss[i - 1], acts[i - 1]);
    }
  }

  // ----- what each step does, on the state itself -----

  lemma StepOfRun(cfg: Config, ss: seq<System>, acts: seq<Action>, i: nat)
    requires Runs(cfg, ss, acts) && i < |acts|
    ensures |ss| == |acts| + 1 && Enabled(cfg, ss[i], acts[i]) && ss[i + 1] == Next(cfg, ss[i], acts[i])
  {
    hide Enabled, Next, Init;
  }

  /** A block is dropped exactly when a board's time at an open and full queue is up. */
  lemma DropsExactly(cfg: Config, s: System, a: Action)
    requires Enabled(cfg, s, a)
    ensures Next(cfg, s, a).queue.dropped > s.queue.dropped <==>
            a.PushResumes? && a.timedOut && !s.queue.closed && |s.queue.items| >= s.queue.capacity
    ensures Next(cfg, s, a).queue.dropped <= s.queue.dropped + 1
  {
  }

  lemma DropsOverRun(cfg: Config, ss: seq<System>, acts: seq<Action>, i: nat)
    requires Runs(cfg, ss, acts) && i < |acts|
    ensures ss[i + 1].queue.dropped > ss[i].queue.dropped <==>
            acts[i].PushResumes? && acts[i].timedOut && !ss[i].queue.closed && |ss[i].queue.items| >= ss[i].queue.capacity
  {
    hide Next, Runs, Enabled;
    StepOfRun(cfg, ss, acts, i);
    DropsExactly(cfg, ss[i], acts[i]);
  }

  /** A board at an open and full queue whose time is not up keeps waiting with its block in hand. */
  lemma WaitsExactly(cfg: Config, s: System, a: Action)
    requires Enabled(cfg, s, a) && (a.PushResumes? || (a.Pushes? && ToFile(cfg, a.b)))
    ensures Next(cfg, s, a).runners[a.b].stage.Waiting? <==>
            !s.queue.closed && |s.queue.items| >= s.queue.capacity && !(a.PushResumes? && a.timedOut)
    ensures Next(cfg, s, a).runners[a.b].stage.Waiting? ==> Next(cfg, s, a).runners[a.b].stage.block == s.runners[a.b].stage.block
  {
  }

  /** A board's reader goes on reading as long as the board is running and nothing is thrown, and only the
      stop of that board ends its running. */
  lemma ReadersKeepGoing(cfg: Config, s: System, a: Action, b: nat)
    requires Enabled(cfg, s, a) && InRange(s, b)
    ensures var r, r' := s.runners[b], Next(cfg, s, a).runners[b];
            && |Next(cfg, s, a).runners| == |s.runners|
            && (r.readerUp && !r'.readerUp ==> a == ReaderThrows(b) || (a == ReaderTests(b) && !r.running))
            && (a == ReaderTests(b) && r.running ==> r'.stage.Reading? && r'.readerUp)
            && (r.running && !r'.running ==> a.ClearsRunning? && s.control.j == b)
            && (!r.readerUp ==> !r'.readerUp) && (!r.running ==> !r'.running)
  {
  }

  /** What the driver delivered for board `b` during the first `n` steps: every buffer that was not empty,
      to the reader or to the stop that drains the board. */
  function Delivered(ss: seq<System>, acts: seq<Action>, b: nat, n: nat): seq<Block>
    requires n <= |acts| <= |ss|
  {
    if n == 0 then []
    else
      var a, s := acts[n - 1], ss[n - 1];
      Delivered(ss, acts, b, n - 1) +
      (if a.ReadReturns? && a.b == b && a.data != [] then [Block(b, a.data)]
       else if a.DrainReads? && s.control.Draining? && s.control.j == b && a.data != [] then [Block(b, a.data)]
       else [])
  }

  lemma StepTakes(cfg: Config, s: System, a: Action, b: nat)
    requires Enabled(cfg, s, a) && InRange(s, b)
    ensures var r, r' := s.runners[b], Next(cfg, s, a).runners[b];
            r'.taken == r.taken + (if a.ReadReturns? && a.b == b && a.data != [] then [Block(b, a.data)]
                                   else if a.DrainReads? && s.control.Draining? && s.control.j == b && a.data != [] then [Block(b, a.data)]
                                   else [])
  {
    assert s.runners[b].taken + [] == s.runners[b].taken;
  }

  /** Every buffer delivered is taken, none twice, in order, by the reader or by the drain. */
  lemma {:induction false} TakenIsDelivered(cfg: Config, ss: seq<System>, acts: seq<Action>, b: nat, i: nat)
    requires Runs(cfg, ss, acts) && i < |ss| && b < |cfg.writes|
    ensures |ss[i].runners| == |cfg.writes| && ss[i].runners[b].taken == Delivered(ss, acts, b, i)
    decreases i
  {
    hide Runs, Next, Enabled, Init;
    FirstOfRun(cfg, ss, acts);
    if i == 0 {
      FreshRunner(cfg, ss[0], b);
    } else {
      StepOfRun(cfg, ss, acts, i - 1);
      TakenIsDelivered(cfg, ss, acts, b, i - 1);
      StepTakes(cfg, ss[i - 1], acts[i - 1], b);
      ReadersKeepGoing(cfg, ss[i - 1], acts[i - 1], b);
    }
  }

  lemma FirstOfRun(cfg: Config, ss: seq<System>, acts: seq<Action>)
    requires Runs(cfg, ss, acts)
    ensures |ss| == |acts| + 1 && Init(cfg, ss[0])
  {
    hide Init, Enabled, Next;
  }

  lemma FreshRunner(cfg: Config, s: System, b: nat)
    requires Init(cfg, s) && b < |cfg.writes|
    ensures |s.runners| == |cfg.writes| && s.runners[b].taken == []
  {
  }

  /** The stop reads a board out in at most 1000 reads that return data, and gives up at the first that
      does not. */
  lemma {:induction false} DrainIsBounded(cfg: Config, ss: seq<System>, acts: seq<Action>, i: nat)
    requires Runs(cfg, ss, acts) && i < |ss|
    ensures ss[i].control.Draining? ==> ss[i].control.n <= 1000
    ensures i < |acts| && acts[i].DrainReads? ==>
              && ss[i].control.Draining? && ss[i].control.n < 1000
              && ss[i + 1].control == if acts[i].data == [] then Clearing(ss[i].control.j + 1)
                                      else Draining(ss[i].control.j, ss[i].control.n + 1)
    decreases i
  {
    hide Runs, Init;
    FirstOfRun(cfg, ss, acts);
    if i == 0 {
      StartsAcquiring(cfg, ss[0]);
    } else {
      StepOfRun(cfg, ss, acts, i - 1);
      DrainIsBounded(cfg, ss, acts, i - 1);
    }
    if i < |acts| {
      StepOfRun(cfg, ss, acts, i);
    }
  }

  lemma StartsAcquiring(cfg: Config, s: System)
    requires Init(cfg, s)
    ensures s.control.Acquiring?
  {
  }

  // ----- the end of a run -----

  function SumWritten(rs: seq<Runner>): nat {
    if rs == [] then 0 else SumWritten(rs[..|rs| - 1]) + rs[|rs| - 1].bytesWritten
  }

  function SumDrops(rs: seq<Runner>): nat {
    if rs == [] then 0 else SumDrops(rs[..|rs| - 1]) + Drops(rs[|rs| - 1].pushes)
  }

  lemma {:induction false} OneRunnerDrops(rs: seq<Runner>, b: nat, r: Runner)
    requires b < |rs|
    ensures SumDrops(rs[b := r]) == SumDrops(rs) - Drops(rs[b].pushes) + Drops(r.pushes)
    decreases |rs|
  {
    hide Drops;
    var last := |rs| - 1;
    if b < last {
      OneRunnerDrops(rs[..last], b, r);
      assert rs[b := r][..last] == rs[..last][b := r];
    } else {
      assert rs[b := r][..last] == rs[..last];
    }
  }

  /** The bytes of the blocks of the boards below `n`. */
  function BytesBelow(bs: seq<Block>, n: nat): nat {
    if n == 0 then 0 else BytesBelow(bs, n - 1) + Bytes(OfBoard(bs, n - 1))
  }

  predicate BoardsBelow(bs: seq<Block>, n: nat) {
    forall i :: 0 <= i < |bs| ==> bs[i].board < n && bs[i].data != []
  }

  lemma {:induction false} OneMoreBelow(bs: seq<Block>, block: Block, n: nat)
    ensures BytesBelow(bs + [block], n) == BytesBelow(bs, n) + if block.board < n then |block.data| else 0
  {
    hide OfBoard, Bytes;
    if n > 0 {
      OneMoreBelow(bs, block, n - 1);
      OneMoreBlock(bs, block, n - 1);
      OneBlock(OfBoard(bs, n - 1), block);
    }
  }

  lemma {:induction false} BytesByBoard(bs: seq<Block>, n: nat)
    requires BoardsBelow(bs, n)
    ensures BytesBelow(bs, n) == Bytes(bs)
    decreases |bs|
  {
    hide BytesBelow;
    if bs == [] {
      NothingBelow(n);
    } else {
      var init, last := bs[..|bs| - 1], bs[|bs| - 1];
      assert bs == init + [last];
      BytesByBoard(init, n);
      OneMoreBelow(init, last, n);
      OneBlock(init, last);
    }
  }

  lemma {:induction false} NothingBelow(n: nat)
    ensures BytesBelow([], n) == 0
  {
    if n > 0 {
      NothingBelow(n - 1);
    }
  }

  /** Only blocks of the run's boards are ever accepted, and no empty one. */
  lemma {:induction false} AcceptedBoards(cfg: Config, ss: seq<System>, acts: seq<Action>, i: nat)
    requires Runs(cfg, ss, acts) && i < |ss|
    ensures BoardsBelow(ss[i].accepted, |cfg.writes|) && |ss[i].runners| == |cfg.writes|
    decreases i
  {
    hide Init, Inv, Next, Enabled;
    if i == 0 {
      Begins(cfg, ss[0]);
    } else {
      AcceptedBoards(cfg, ss, acts, i - 1);
      AlwaysInv(cfg, ss, acts, i - 1);
      AcceptsKnownBoard(cfg, ss[i - 1], acts[i - 1]);
    }
  }

  lemma Begins(cfg: Config, s: System)
    requires Init(cfg, s)
    ensures s.accepted == [] && |s.runners| == |cfg.writes| && s.queue.dropped == SumDrops(s.runners)
  {
    NoDrops(s.runners);
  }

  lemma {:induction false} NoDrops(rs: seq<Runner>)
    requires forall b :: 0 <= b < |rs| ==> rs[b].pushes == []
    ensures SumDrops(rs) == 0
    decreases |rs|
  {
    if rs != [] {
      NoDrops(rs[..|rs| - 1]);
    }
  }

  /** The queue's own drop counter agrees with what the boards were told. */
  lemma {:induction false} DropsAgree(cfg: Config, ss: seq<System>, acts: seq<Action>, i: nat)
    requires Runs(cfg, ss, acts) && i < |ss|
    ensures ss[i].queue.dropped == SumDrops(ss[i].runners)
    decreases i
  {
    hide Init, Inv, Next, Enabled;
    if i == 0 {
      Begins(cfg, ss[0]);
    } else {
      DropsAgree(cfg, ss, acts, i - 1);
      StepDrops(cfg, ss[i - 1], acts[i - 1]);
    }
  }

  lemma PushDrops(s: System, b: nat, block: Block, woken: bool, timedOut: bool)
    requires InRange(s, b)
    ensures var s' := Push(s, b, block, woken, timedOut);
            s'.queue.dropped - s.queue.dropped == SumDrops(s'.runners) - SumDrops(s.runners)
  {
    hide Drops, SumDrops;
    var r, a := s.runners[b], PushAnswerOf(s.queue, woken, timedOut);
    OneRunnerDrops(s.runners, b, AfterAnswer(r, block, a));
    OneMorePush(r.pushes, Pushed(block, a));
  }

  lemma {:induction false} SamePushes(rs: seq<Runner>, rs': seq<Runner>)
    requires |rs| == |rs'| && forall b :: 0 <= b < |rs| ==> rs[b].pushes == rs'[b].pushes
    ensures SumDrops(rs) == SumDrops(rs')
    decreases |rs|
  {
    hide Drops;
    if rs != [] {
      SamePushes(rs[..|rs| - 1], rs'[..|rs| - 1]);
    }
  }

  lemma StepDrops(cfg: Config, s: System, a: Action)
    requires Enabled(cfg, s, a)
    ensures var s' := Next(cfg, s, a);
            s'.queue.dropped - s.queue.dropped == SumDrops(s'.runners) - SumDrops(s.runners)
  {
    hide Drops, SumDrops, Push, PushAnswerOf;
    if a.Pushes? && ToFile(cfg, a.b) {
      PushDrops(s, a.b, s.runners[a.b].stage.block, false, false);
    } else if a.PushResumes? {
      PushDrops(s, a.b, s.runners[a.b].stage.block, true, a.timedOut);
    } else {
      SamePushes(s.runners, Next(cfg, s, a).runners);
    }
  }

  lemma AcceptsKnownBoard(cfg: Config, s: System, a: Action)
    requires Inv(cfg, s) && Enabled(cfg, s, a) && BoardsBelow(s.accepted, |s.runners|)
    ensures BoardsBelow(Next(cfg, s, a).accepted, |s.runners|) && |Next(cfg, s, a).runners| == |s.runners|
  {
    hide Books, Kept, OfBoard, Flow, ControlInv;
    if a.Pushes? || a.PushResumes? {
      SameSize(cfg, s);
      assert RunnerInv(cfg, s, a.b);
    }
  }

  lemma {:induction false} WrittenByBoard(rs: seq<Runner>, bs: seq<Block>)
    requires forall b :: 0 <= b < |rs| ==> rs[b].bytesWritten == Bytes(OfBoard(bs, b))
    ensures SumWritten(rs) == BytesBelow(bs, |rs|)
    decreases |rs|
  {
    hide Bytes, OfBoard;
    if rs != [] {
      WrittenByBoard(rs[..|rs| - 1], bs);
    }
  }

  /** A board after the run: at rest, its reads all pushed, in the file exactly those pushes that were not
      dropped, its counters in agreement. */
  predicate Settled(cfg: Config, s: System, b: nat)
    requires b < |s.runners|
  {
    var r := s.runners[b];
    && r.stage.Idle? && !r.readerUp && !r.running
    && (ToFile(cfg, b) ==> r.taken == Offered(r.pushes))
    && OfBoard(s.file, b) == Kept(r.pushes)
    && r.blocksDropped == Drops(r.pushes) && NoneRefused(r.pushes)
    && r.buffersRead == |r.taken| && r.bytesRead == Bytes(r.taken) && r.bytesWritten == Bytes(Kept(r.pushes))
  }

  /** Once the run is stopped, in whatever order its threads ran: the file holds the accepted blocks in
      order, board by board the reads in order less exactly the counted drops; the bytes the boards
      report add up to those in the file; no push was refused because the queue was closed. */
  lemma StoppedRunIsOnFile(cfg: Config, ss: seq<System>, acts: seq<Action>, i: nat)
    requires Runs(cfg, ss, acts) && i < |ss| && ss[i].control.Finished?
    ensures var s := ss[i];
            && s.file == s.accepted && s.queue.items == [] && s.writer.Done?
            && |s.runners| == |cfg.writes|
            && (forall b :: 0 <= b < |s.runners| ==> Settled(cfg, s, b))
            && SumWritten(s.runners) == Bytes(s.file)
            && SumDrops(s.runners) == s.queue.dropped
  {
    hide Enabled, Next, Init, OfBoard, Kept, Bytes, Offered, Drops, NoneRefused;
    var s := ss[i];
    AlwaysInv(cfg, ss, acts, i);
    AcceptedBoards(cfg, ss, acts, i);
    DropsAgree(cfg, ss, acts, i);
    assert s.accepted == s.file by {
      assert s.file + [] + [] == s.file;
    }
    forall b | 0 <= b < |s.runners|
      ensures Settled(cfg, s, b) && s.runners[b].bytesWritten == Bytes(OfBoard(s.file, b))
    {
      assert RunnerInv(cfg, s, b);
      assert Offered(s.runners[b].pushes) + [] == Offered(s.runners[b].pushes);
    }
    WrittenByBoard(s.runners, s.file);
    BytesByBoard(s.file, |s.runners|);
  }

  // ----- the stop always gets through -----

  function ControlRank(c: Control, n: nat): nat {
    match c
    case Acquiring => 3 * n + 8
    case Clearing(j) => if j <= n then 3 * (n - j) + 4 else 0
    case Joining(j) => if j < n then 3 * (n - j) + 3 else 0
    case Draining(j, _) => if j < n then 3 * (n - j) + 2 else 0
    case ClosingQueue => 2
    case JoiningWriter => 1
    case Finished => 0
  }

  function StageRank(r: Runner): nat {
    (match r.stage case Idle => 0 case Answered(_, _) => 1 case Waiting(_) => 2 case Holding(_) => 3 case Reading => 4)
    + (if r.readerUp then 5 else 0)
  }

  /** The board that the stop is waiting for. */
  function WaitsFor(s: System): nat {
    match s.control
    case Joining(j) => if j < |s.runners| then StageRank(s.runners[j]) else 0
    case Draining(j, _) => if j < |s.runners| then StageRank(s.runners[j]) else 0
    case JoiningWriter =>
      2 * |s.queue.items| + (match s.writer case Polling => 1 case Writing(_) => 2 case Done => 0)
    case _ => 0
  }

  /** A next step on the way to the end: time passes, boards have nothing more to say. */
  function StepTowardsEnd(s: System): Action {
    match s.control
    case Acquiring => BeginsStop
    case Clearing(_) => ClearsRunning
    case Joining(j) => if j < |s.runners| && s.runners[j].readerUp then RunnerStep(s, j) else JoinsReader
    case Draining(j, _) => if j < |s.runners| && !s.runners[j].stage.Idle? then RunnerStep(s, j) else DrainGivesUp
    case ClosingQueue => ClosesQueue
    case _ => if s.writer.Polling? then WriterPops(true) else if s.writer.Writing? then WriterWrites else JoinsWriter
  }

  function RunnerStep(s: System, j: nat): Action
    requires j < |s.runners|
  {
    match s.runners[j].stage
    case Idle => ReaderTests(j)
    case Reading => ReadReturns(j, [])
    case Holding(_) => Pushes(j)
    case Waiting(_) => Action.PushResumes(j, true)
    case Answered(_, _) => Counts(j)
  }

  lemma StepsTowardsEnd(cfg: Config, s: System)
    requires Inv(cfg, s) && !s.control.Finished?
    ensures var a := StepTowardsEnd(s);
            && Enabled(cfg, s, a)
            && var s' := Next(cfg, s, a);
               |s'.runners| == |s.runners| &&
               (ControlRank(s'.control, |s.runners|) < ControlRank(s.control, |s.runners|)
                || (s'.control == s.control && WaitsFor(s') < WaitsFor(s)))
  {
    hide Books, Owns, Flow, Bytes;
    SameSize(cfg, s);
    if s.control.Joining? || s.control.Draining? {
      assert RunnerInv(cfg, s, s.control.j);
    }
  }

  /** No interleaving leads to a deadlock: from every state of every run, the stop can still be carried
      through to the end. */
  lemma {:induction false} CanAlwaysFinish(cfg: Config, ss: seq<System>, acts: seq<Action>)
    requires Runs(cfg, ss, acts)
    ensures exists ss': seq<System>, acts': seq<Action> ::
              Runs(cfg, ss', acts') && ss <= ss' && acts <= acts' && ss'[|ss'| - 1].control.Finished?
    decreases ControlRank(ss[|ss| - 1].control, |ss[|ss| - 1].runners|), WaitsFor(ss[|ss| - 1])
  {
    hide Inv, Enabled, Next, Init, StepTowardsEnd, ControlRank, WaitsFor;
    var s := ss[|ss| - 1];
    if !s.control.Finished? {
      AlwaysInv(cfg, ss, acts, |ss| - 1);
      StepsTowardsEnd(cfg, s);
      var a := StepTowardsEnd(s);
      CanAlwaysFinish(cfg, ss + [Next(cfg, s, a)], acts + [a]);
    }
  }
}
