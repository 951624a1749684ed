/** Starting and stopping a run over several boards: which calls are made, in which order, and what is
    left when one of them fails. */
module RunControl {
  import opened Words
  import ClockSync

  datatype SyncRole = Independent | Master | Slave

  /** A board as its configuration left it. The `can` fields say how its driver calls turn out. */
  datatype Board = Board(regId: nat, startMode: nat, acquisitionControl: Word, writes: bool,
                         canPrepare: bool, canBegin: bool, canTrigger: bool)

  /** Any start mode but software control waits for an external start. */
  predicate Synchronised(b: Board) { b.startMode != 0 }

  datatype Runner = Runner(board: Board, running: bool, readerUp: bool, role: SyncRole)

  datatype Event =
    | Prepared(i: nat) | FileOpened
    | Realigned(order: seq<nat>) | WriterUp
    | Armed(i: nat) | Started(i: nat) | Triggered(i: nat) | ReaderUp(i: nat)
    | BoardStopped(i: nat) | ReaderJoined(i: nat) | Drained(i: nat) | BoardClosed(i: nat)
    | QueueClosed | WriterJoined | FileClosed

  // ----- the master -----

  predicate Candidate(b: Board, zero: bool) { Synchronised(b) && (zero ==> b.regId == 0) }

  /** The first board from `i` on that is synchronised, with register id 0 if asked; else -1. */
  function FirstFrom(rs: seq<Runner>, zero: bool, i: nat): int
    decreases |rs| - i
  {
    if i >= |rs| then -1 else if Candidate(rs[i].board, zero) then i else FirstFrom(rs, zero, i + 1)
  }

  function MasterOf(rs: seq<Runner>): int {
    var zero := FirstFrom(rs, true, 0);
    if zero >= 0 then zero else FirstFrom(rs, false, 0)
  }

  lemma {:induction false} FirstIsFirst(rs: seq<Runner>, zero: bool, i: nat)
    requires i <= |rs|
    ensures var f := FirstFrom(rs, zero, i);
            if f < 0 then f == -1 && forall k :: i <= k < |rs| ==> !Candidate(rs[k].board, zero)
            else i <= f < |rs| && Candidate(rs[f].board, zero) && forall k :: i <= k < f ==> !Candidate(rs[k].board, zero)
    decreases |rs| - i
  {
    if i < |rs| && !Candidate(rs[i].board, zero) {
      FirstIsFirst(rs, zero, i + 1);
    }
  }

  /** There is a master exactly when a board is synchronised; it is synchronised itself, and it is a board
      with register id 0 whenever a synchronised one has it. */
  lemma MasterIsRight(rs: seq<Runner>)
    ensures MasterOf(rs) >= 0 <==> exists i :: 0 <= i < |rs| && Synchronised(rs[i].board)
    ensures -1 <= MasterOf(rs) < |rs|
    ensures MasterOf(rs) >= 0 ==>
              && Synchronised(rs[MasterOf(rs)].board)
              && ((exists i :: 0 <= i < |rs| && Candidate(rs[i].board, true)) ==> rs[MasterOf(rs)].board.regId == 0)
    ensures MasterOf(rs) >= 0 ==> forall i :: 0 <= i < MasterOf(rs) && rs[i].board.startMode != 0 ==>
              rs[i].board.regId != 0 && rs[MasterOf(rs)].board.regId == 0
    ensures forall b: Board :: (Candidate(b, true) <==> b.startMode != 0 && b.regId == 0) && (Candidate(b, false) <==> b.startMode != 0)
  {
    FirstIsFirst(rs, true, 0);
    FirstIsFirst(rs, false, 0);
    forall i | 0 <= i < |rs| && Synchronised(rs[i].board)
      ensures Candidate(rs[i].board, false) && MasterOf(rs) >= 0
    {
      assert Candidate(rs[i].board, false);
    }
  }

  // ----- what a start and a stop consist of -----

  function BeginEvent(b: Board, i: nat): Event { if Synchronised(b) then Armed(i) else Started(i) }

  /** The first `k` boards armed or started. */
  function Begun(rs: seq<Runner>, k: nat): seq<Event>
    requires k <= |rs|
  {
    seq(k, i requires 0 <= i < k => BeginEvent(rs[i].board, i))
  }

  /** One running board stopped, its reader (if it was up) joined, then read out and closed. */
  function Halt(i: nat, readerUp: bool): seq<Event> {
    [BoardStopped(i)] + (if readerUp then [ReaderJoined(i)] else []) + [Drained(i), BoardClosed(i)]
  }

  /** The first `k` boards stopped. */
  function Halted(k: nat, readerUp: bool): seq<Event> {
    if k == 0 then [] else Halted(k - 1, readerUp) + Halt(k - 1, readerUp)
  }

  function Teardown(anyWrite: bool): seq<Event> {
    [QueueClosed] + (if anyWrite then [WriterJoined, FileClosed] else [])
  }

  function ReadersUp(n: nat): seq<Event> { seq(n, i requires 0 <= i < n => ReaderUp(i)) }

  function Trigger(rs: seq<Runner>): seq<Event> {
    if MasterOf(rs) >= 0 then [Triggered(MasterOf(rs))] else []
  }

  /** The clock chain is aligned only if it has two boards or more. */
  function Alignment(order: seq<nat>): seq<Event> { if |order| < 2 then [] else [Realigned(order)] }

  function AcquisitionControls(rs: seq<Runner>): seq<Word> {
    seq(|rs|, i requires 0 <= i < |rs| => rs[i].board.acquisitionControl)
  }

  /** Master first, then in board order the boards on CLK-IN; empty without one. */
  ghost predicate RightOrder(rs: seq<Runner>, order: seq<nat>) {
    var acqs := AcquisitionControls(rs);
    if ClockSync.AnyExternal(acqs) then ClockSync.ChainOrder(acqs, MasterOf(rs), order) else order == []
  }

  /** Board `i` takes its clock from CLK-IN. */
  predicate TakesClock(rs: seq<Runner>, i: nat) { i < |rs| && rs[i].board.acquisitionControl / 0x40 % 2 == 1 }

  /** The boards aligned, by bit 6 of their registers: nobody unless some board takes its clock from outside,
      else those boards and the master, each once, the master first and the others in board order. */
  lemma ChainByNumbers(rs: seq<Runner>, order: seq<nat>)
    requires RightOrder(rs, order)
    ensures order == [] <==> forall i: nat :: !TakesClock(rs, i)
    ensures order != [] ==> forall i: nat :: i in order <==> TakesClock(rs, i) || i == MasterOf(rs)
    ensures order != [] && MasterOf(rs) >= 0 ==> order[0] == MasterOf(rs) && MasterOf(rs) !in order[1..]
    ensures forall p, q :: (if MasterOf(rs) >= 0 then 1 else 0) <= p < q < |order| ==> order[p] < order[q]
  {
    hide MasterOf, ClockSync.External;
    MasterIsRight(rs);
    var acqs := AcquisitionControls(rs);
    forall i: nat | i < |rs|
      ensures ClockSync.External(acqs[i]) <==> TakesClock(rs, i)
    {
      ClockSync.ByTheirNumbers(acqs[i], [], 0, false);
    }
    if ClockSync.AnyExternal(acqs) {
      var i :| 0 <= i < |acqs| && ClockSync.External(acqs[i]);
      assert TakesClock(rs, i) && ClockSync.InChain(acqs, MasterOf(rs), i);
    } else {
      forall i: nat | i < |rs|
        ensures !TakesClock(rs, i)
      {
        assert !ClockSync.External(acqs[i]);
      }
    }
  }

  /** A start that reached its first `k` boards and then succeeded or failed. */
  function StartLog(rs: seq<Runner>, anyWrite: bool, order: seq<nat>, k: nat, ok: bool): seq<Event>
    requires k <= |rs|
  {
    Alignment(order) + (if anyWrite then [WriterUp] else []) + Begun(rs, k)
    + (if ok then Trigger(rs) + ReadersUp(|rs|) else Halted(k, false) + Teardown(anyWrite))
  }

  /** The boards begin in order until one cannot. */
  predicate BeginsUpTo(rs: seq<Runner>, k: nat) {
    k <= |rs| && (forall i :: 0 <= i < k ==> rs[i].board.canBegin) && (k < |rs| ==> !rs[k].board.canBegin)
  }

  predicate CanStart(rs: seq<Runner>, k: nat) {
    k == |rs| && (0 <= MasterOf(rs) < |rs| ==> rs[MasterOf(rs)].board.canTrigger)
  }

  /** A start gets to the first board that cannot begin. It succeeds exactly when there is none and the
      master, if any, can be triggered. */
  lemma SucceedsIff(rs: seq<Runner>, k: nat)
    requires BeginsUpTo(rs, k)
    ensures -1 <= MasterOf(rs) < |rs|
    ensures CanStart(rs, k) <==>
              && (forall i :: 0 <= i < |rs| ==> rs[i].board.canBegin)
              && (MasterOf(rs) >= 0 ==> rs[MasterOf(rs)].board.canTrigger)
    ensures forall i :: 0 <= i < |rs| && !rs[i].board.canBegin ==> k <= i
    ensures k < |rs| ==> !rs[k].board.canBegin
  {
    hide MasterOf;
    MasterIsRight(rs);
  }

  function Role(rs: seq<Runner>, i: nat): SyncRole
    requires i < |rs|
  {
    if !Synchronised(rs[i].board) then Independent else if i == MasterOf(rs) then Master else Slave
  }

  predicate SameBoards(a: seq<Runner>, b: seq<Runner>) {
    |a| == |b| && forall i :: 0 <= i < |a| ==> a[i].board == b[i].board
  }

  lemma {:induction false} SameFirst(a: seq<Runner>, b: seq<Runner>, zero: bool, i: nat)
    requires SameBoards(a, b)
    ensures FirstFrom(a, zero, i) == FirstFrom(b, zero, i)
    decreases |a| - i
  {
    if i < |a| {
      SameFirst(a, b, zero, i + 1);
    }
  }

  /** Nothing in a start depends on more than the boards. */
  lemma SameStart(a: seq<Runner>, b: seq<Runner>)
    requires SameBoards(a, b)
    ensures MasterOf(a) == MasterOf(b) && AcquisitionControls(a) == AcquisitionControls(b)
    ensures forall k :: 0 <= k <= |a| ==> Begun(a, k) == Begun(b, k)
  {
    SameFirst(a, b, true, 0);
    SameFirst(a, b, false, 0);
  }

  predicate OnlyPreparation(es: seq<Event>) {
    forall i :: 0 <= i < |es| ==> es[i].Prepared? || es[i].FileOpened?
  }

  predicate CanPrepare(rs: seq<Runner>, anyWrite: bool, canOpenFile: bool) {
    (forall i :: 0 <= i < |rs| ==> rs[i].board.canPrepare) && (anyWrite ==> canOpenFile)
  }

  predicate AnyWrites(rs: seq<Runner>) { exists i :: 0 <= i < |rs| && rs[i].board.writes }

  /** How a call of start or stop turned out. */
  datatype Outcome = Unprepared | StartFailed | StartSucceeded | AlreadyRunning | Stopped | NothingToStop

  /** A prepared start has failed, or a run has been stopped. */
  predicate TornDown(calls: seq<Outcome>) { StartFailed in calls || Stopped in calls }

  predicate AllUp(rs: seq<Runner>) { forall i :: 0 <= i < |rs| ==> rs[i].running && rs[i].readerUp }
  predicate AllDown(rs: seq<Runner>) { forall i :: 0 <= i < |rs| ==> !rs[i].running && !rs[i].readerUp }

  // ----- order in a log, by positions -----

  /** Both happen, and every `x` before every `y`. */
  predicate Before(es: seq<Event>, x: Event, y: Event) {
    && x in es && y in es
    && forall p, q :: 0 <= p < |es| && 0 <= q < |es| && es[p] == x && es[q] == y ==> p < q
  }

  /** Board `i` is stopped, then (if its reader was up) its reader joined, then drained, then closed. */
  predicate BoardHalts(es: seq<Event>, i: nat, readerUp: bool) {
    && (if readerUp then Before(es, BoardStopped(i), ReaderJoined(i)) && Before(es, ReaderJoined(i), Drained(i))
        else Before(es, BoardStopped(i), Drained(i)) && ReaderJoined(i) !in es)
    && Before(es, Drained(i), BoardClosed(i))
  }

  /** A whole stop of `n` boards: each in its order, one board after the other, then the queue, then the
      writer, which can only end when its queue is closed, then the file. */
  predicate StopsInOrder(es: seq<Event>, n: nat, readerUp: bool, anyWrite: bool) {
    && (forall i :: 0 <= i < n ==> BoardHalts(es, i, readerUp) && Before(es, BoardClosed(i), QueueClosed))
    && (forall i, j :: 0 <= i < j < n ==> Before(es, BoardClosed(i), BoardStopped(j)))
    && QueueClosed in es
    && (if anyWrite then Before(es, QueueClosed, WriterJoined) && Before(es, WriterJoined, FileClosed)
        else WriterJoined !in es && FileClosed !in es)
  }

  /** Where an event of a stop of `n` boards stands. */
  function Place(e: Event, n: nat): int {
    match e
    case BoardStopped(i) => 4 * i
    case ReaderJoined(i) => 4 * i + 1
    case Drained(i) => 4 * i + 2
    case BoardClosed(i) => 4 * i + 3
    case QueueClosed => 4 * n
    case WriterJoined => 4 * n + 1
    case FileClosed => 4 * n + 2
    case _ => -1
  }

  predicate Placed(es: seq<Event>, n: nat, lo: int, hi: int) {
    && (forall p :: 0 <= p < |es| ==> lo <= Place(es[p], n) < hi)
    && forall p, q :: 0 <= p < q < |es| ==> Place(es[p], n) < Place(es[q], n)
  }

  lemma PlacedJoin(a: seq<Event>, b: seq<Event>, n: nat, lo: int, mid: int, hi: int)
    requires Placed(a, n, lo, mid) && Placed(b, n, mid, hi) && lo <= mid <= hi
    ensures Placed(a + b, n, lo, hi)
  {
    hide Place;
  }

  lemma {:induction false} HaltedPlaced(k: nat, readerUp: bool, n: nat)
    requires k <= n
    ensures Placed(Halted(k, readerUp), n, 0, 4 * k)
  {
    hide Placed, Halt;
    if k == 0 {
      NonePlaced(n);
    } else {
      HaltedPlaced(k - 1, readerUp, n);
      HaltPlaced(k - 1, readerUp, n);
      PlacedJoin(Halted(k - 1, readerUp), Halt(k - 1, readerUp), n, 0, 4 * (k - 1), 4 * k);
    }
  }

  lemma NonePlaced(n: nat)
    ensures Placed([], n, 0, 0)
  {
  }

  predicate AllPresent(es: seq<Event>, i: nat, readerUp: bool) {
    BoardStopped(i) in es && Drained(i) in es && BoardClosed(i) in es && (readerUp ==> ReaderJoined(i) in es)
  }

  lemma {:induction false} HaltedPresent(k: nat, readerUp: bool)
    ensures forall i :: 0 <= i < k ==> AllPresent(Halted(k, readerUp), i, readerUp)
    ensures !readerUp ==> forall i :: ReaderJoined(i) !in Halted(k, readerUp)
    ensures WriterJoined !in Halted(k, readerUp) && FileClosed !in Halted(k, readerUp)
  {
    if k > 0 {
      HaltedPresent(k - 1, readerUp);
      HaltPresent(k - 1, readerUp);
      forall i | 0 <= i < k
        ensures AllPresent(Halted(k, readerUp), i, readerUp)
      {
        assert i < k - 1 ==> AllPresent(Halted(k - 1, readerUp), i, readerUp);
      }
    }
  }

  lemma HaltPlaced(i: nat, readerUp: bool, n: nat)
    ensures Placed(Halt(i, readerUp), n, 4 * i, 4 * i + 4)
  {
  }

  lemma HaltPresent(i: nat, readerUp: bool)
    ensures AllPresent(Halt(i, readerUp), i, readerUp)
  {
    var h := Halt(i, readerUp);
    assert h[0] == BoardStopped(i) && h[|h| - 2] == Drained(i) && h[|h| - 1] == BoardClosed(i);
    assert readerUp ==> h[1] == ReaderJoined(i);
  }

  lemma TeardownPlaced(anyWrite: bool, n: nat)
    ensures Placed(Teardown(anyWrite), n, 4 * n, 4 * n + 3)
    ensures QueueClosed in Teardown(anyWrite)
    ensures WriterJoined in Teardown(anyWrite) <==> anyWrite
    ensures FileClosed in Teardown(anyWrite) <==> anyWrite
  {
    var t := Teardown(anyWrite);
    assert t[0] == QueueClosed;
    assert anyWrite ==> t[1] == WriterJoined && t[2] == FileClosed;
  }

  /** Events that stand in place come in the order of their places. */
  lemma InPlace(es: seq<Event>, n: nat, lo: int, hi: int, x: Event, y: Event)
    requires Placed(es, n, lo, hi) && x in es && y in es && Place(x, n) < Place(y, n)
    ensures Before(es, x, y)
  {
    hide Place;
  }

  /** So a stop, and the undoing of a failed start, come in their order. */
  lemma StopKeepsOrder(k: nat, readerUp: bool, anyWrite: bool)
    ensures StopsInOrder(Halted(k, readerUp) + Teardown(anyWrite), k, readerUp, anyWrite)
  {
    hide Halted, Teardown, Placed, Before;
    var es := Halted(k, readerUp) + Teardown(anyWrite);
    HaltedPlaced(k, readerUp, k);
    TeardownPlaced(anyWrite, k);
    PlacedJoin(Halted(k, readerUp), Teardown(anyWrite), k, 0, 4 * k, 4 * k + 3);
    HaltedPresent(k, readerUp);
    NoReaderInTeardown(anyWrite);
    forall i | 0 <= i < k
      ensures BoardHalts(es, i, readerUp) && Before(es, BoardClosed(i), QueueClosed)
    {
      assert AllPresent(Halted(k, readerUp), i, readerUp);
      OneBoardHalts(es, k, i, readerUp);
    }
    forall i, j | 0 <= i < j < k
      ensures Before(es, BoardClosed(i), BoardStopped(j))
    {
      assert AllPresent(Halted(k, readerUp), i, readerUp) && AllPresent(Halted(k, readerUp), j, readerUp);
      InPlace(es, k, 0, 4 * k + 3, BoardClosed(i), BoardStopped(j));
    }
    if anyWrite {
      InPlace(es, k, 0, 4 * k + 3, QueueClosed, WriterJoined);
      InPlace(es, k, 0, 4 * k + 3, WriterJoined, FileClosed);
    }
  }

  /** An event that belongs to no stop. */
  predicate StartEvent(e: Event) {
    e.Prepared? || e.FileOpened? || e.Realigned? || e.WriterUp? || e.Armed? || e.Started? || e.Triggered? || e.ReaderUp?
  }

  predicate OnlyStart(es: seq<Event>) { forall p :: 0 <= p < |es| ==> StartEvent(es[p]) }

  lemma BeforeBehind(pre: seq<Event>, es: seq<Event>, x: Event, y: Event)
    requires OnlyStart(pre) && Before(es, x, y) && !StartEvent(x) && !StartEvent(y)
    ensures Before(pre + es, x, y)
  {
    hide StartEvent;
    var all := pre + es;
    var p, q :| 0 <= p < |es| && 0 <= q < |es| && es[p] == x && es[q] == y;
    assert all[|pre| + p] == x && all[|pre| + q] == y;
    forall i, j | 0 <= i < |all| && 0 <= j < |all| && all[i] == x && all[j] == y
      ensures i < j
    {
      assert i >= |pre| && j >= |pre|;
      assert es[i - |pre|] == x && es[j - |pre|] == y;
    }
  }

  /** What was done before does not disturb the order of a stop. */
  lemma StopsBehind(pre: seq<Event>, es: seq<Event>, n: nat, readerUp: bool, anyWrite: bool)
    requires OnlyStart(pre) && StopsInOrder(es, n, readerUp, anyWrite)
    ensures StopsInOrder(pre + es, n, readerUp, anyWrite)
  {
    hide Before;
    StopEventsOnly(pre, es);
    forall i | 0 <= i < n
      ensures BoardHalts(pre + es, i, readerUp) && Before(pre + es, BoardClosed(i), QueueClosed)
    {
      assert BoardHalts(es, i, readerUp);
      if readerUp {
        BeforeBehind(pre, es, BoardStopped(i), ReaderJoined(i));
        BeforeBehind(pre, es, ReaderJoined(i), Drained(i));
      } else {
        BeforeBehind(pre, es, BoardStopped(i), Drained(i));
      }
      BeforeBehind(pre, es, Drained(i), BoardClosed(i));
      BeforeBehind(pre, es, BoardClosed(i), QueueClosed);
    }
    forall i, j | 0 <= i < j < n
      ensures Before(pre + es, BoardClosed(i), BoardStopped(j))
    {
      BeforeBehind(pre, es, BoardClosed(i), BoardStopped(j));
    }
    if anyWrite {
      BeforeBehind(pre, es, QueueClosed, WriterJoined);
      BeforeBehind(pre, es, WriterJoined, FileClosed);
    }
  }

  lemma StopEventsOnly(pre: seq<Event>, es: seq<Event>)
    requires OnlyStart(pre)
    ensures forall e :: !StartEvent(e) ==> (e in pre + es <==> e in es)
  {
    hide StartEvent;
  }

  lemma NoReaderInTeardown(anyWrite: bool)
    ensures forall i :: ReaderJoined(i) !in Teardown(anyWrite)
  {
  }

  lemma OneBoardHalts(es: seq<Event>, k: nat, i: nat, readerUp: bool)
    requires Placed(es, k, 0, 4 * k + 3) && i < k && QueueClosed in es
    requires BoardStopped(i) in es && Drained(i) in es && BoardClosed(i) in es && (ReaderJoined(i) in es <==> readerUp)
    ensures BoardHalts(es, i, readerUp) && Before(es, BoardClosed(i), QueueClosed)
  {
    hide Placed, Before;
    if readerUp {
      InPlace(es, k, 0, 4 * k + 3, BoardStopped(i), ReaderJoined(i));
      InPlace(es, k, 0, 4 * k + 3, ReaderJoined(i), Drained(i));
    } else {
      InPlace(es, k, 0, 4 * k + 3, BoardStopped(i), Drained(i));
    }
    InPlace(es, k, 0, 4 * k + 3, Drained(i), BoardClosed(i));
    InPlace(es, k, 0, 4 * k + 3, BoardClosed(i), QueueClosed);
  }

  class Daq {
    const canOpenFile: bool
    var runners: seq<Runner>
    var anyWrite: bool
    var prepared: bool
    var running: bool
    var writerUp: bool
    var queueClosed: bool
    var fileOpen: bool
    var log: seq<Event>         // every call to a board, a thread or the file, in order
    ghost var calls: seq<Outcome>

    ghost predicate Valid()
      reads this
    {
      && (anyWrite <==> AnyWrites(runners))
      && (if running then prepared && AllUp(runners) && writerUp == anyWrite else AllDown(runners) && !writerUp)
      && (queueClosed <==> TornDown(calls))
      && (!prepared ==> !queueClosed)
      && (prepared ==> fileOpen == (anyWrite && !queueClosed))
    }

    constructor (canOpenFile: bool)
      ensures Valid() && runners == [] && !running && !prepared && log == [] && calls == []
      ensures this.canOpenFile == canOpenFile
    {
      this.canOpenFile := canOpenFile;
      runners, anyWrite, prepared, running, writerUp, queueClosed, fileOpen, log := [], false, false, false, false, false, false, [];
      calls := [];
    }

    /** The blocks of writing boards reach the file. */
    ghost predicate Recording()
      reads this
    {
      running && writerUp && !queueClosed && fileOpen
    }

    method AddBoard(board: Board) returns (index: int)
      requires Valid()
      modifies `runners, `anyWrite
      ensures Valid()
      ensures prepared || running ==> index == -1 && runners == old(runners)
      ensures !prepared && !running ==> index == |old(runners)| && runners == old(runners) + [Runner(board, false, false, Independent)]
      ensures anyWrite == (old(anyWrite) || (index >= 0 && board.writes))
    {
      if running || prepared {
        return -1;
      }
      index := |runners|;
      if board.writes {
        anyWrite := true;
      }
      runners := runners + [Runner(board, false, false, Independent)];
      assert runners[index].board == board;
      assert forall i :: 0 <= i < index ==> runners[i] == old(runners)[i];
    }

    method MasterIndex() returns (m: int)
      ensures m == MasterOf(runners)
    {
      var firstSynced := -1;
      var i := 0;
      while i < |runners|
        invariant 0 <= i <= |runners|
        invariant FirstFrom(runners, true, 0) == FirstFrom(runners, true, i)
        invariant if firstSynced < 0 then firstSynced == -1 && FirstFrom(runners, false, 0) == FirstFrom(runners, false, i)
                  else FirstFrom(runners, false, 0) == firstSynced
      {
        if Synchronised(runners[i].board) {
          if firstSynced < 0 {
            firstSynced := i;
          }
          if runners[i].board.regId == 0 {
            return i;
          }
        }
        i := i + 1;
      }
      return firstSynced;
    }

    method AlignClockChain() returns (ghost order: seq<nat>)
      modifies `log
      ensures RightOrder(runners, order) && log == old(log) + Alignment(order)
    {
      hide ClockSync.External;
      var acqs := AcquisitionControls(runners);
      var master := MasterIndex();
      var chain := ClockSync.ClockChainOrder(acqs, master);
      order := chain;
      if |chain| < 2 {
        assert log + [] == log;
        return;
      }
      log := log + [Realigned(chain)];
    }

    method Prepare() returns (ok: bool, ghost es: seq<Event>)
      requires Valid() && !running
      modifies `prepared, `fileOpen, `log
      ensures Valid() && ok == prepared
      ensures ok <==> old(prepared) || CanPrepare(runners, anyWrite, canOpenFile)
      ensures ok && !old(prepared) ==> (forall i :: 0 <= i < |runners| ==> runners[i].board.canPrepare) && (anyWrite ==> canOpenFile)
      ensures !ok ==> (exists i :: 0 <= i < |runners| && !runners[i].board.canPrepare) || (anyWrite && !canOpenFile)
      ensures log == old(log) + es && OnlyPreparation(es)
      ensures old(prepared) ==> es == []
      ensures ok && !old(prepared) ==>
                && (forall i :: 0 <= i < |runners| ==> Prepared(i) in es)
                && (FileOpened in es <==> anyWrite)
    {
      es := [];
      if prepared {
        return true, es;
      }
      for i := 0 to |runners|
        invariant log == old(log) + es && OnlyPreparation(es)
        invariant (forall j :: 0 <= j < i ==> Prepared(j) in es) && FileOpened !in es
        invariant prepared == old(prepared) && fileOpen == old(fileOpen)
        invariant forall j :: 0 <= j < i ==> runners[j].board.canPrepare
      {
        if !runners[i].board.canPrepare {
          return false, es;
        }
        log := log + [Prepared(i)];
        es := es + [Prepared(i)];
      }
      if anyWrite {
        if !canOpenFile {
          return false, es;
        }
        log := log + [FileOpened];
        es := es + [FileOpened];
      }
      fileOpen := anyWrite;
      prepared := true;
      return true, es;
    }

    /** BoardRunner::stop: does nothing on a board that is not running. */
    method StopRunner(i: nat)
      requires i < |runners|
      modifies `runners, `log
      ensures runners == if old(runners)[i].running then old(runners)[i := old(runners)[i].(running := false, readerUp := false)]
                         else old(runners)
      ensures log == old(log) + if old(runners)[i].running then Halt(i, old(runners)[i].readerUp) else []
    {
      var r := runners[i];
      if !r.running {
        return;
      }
      r := r.(running := false);
      log := log + [BoardStopped(i)];
      if r.readerUp {
        log := log + [ReaderJoined(i)];
        r := r.(readerUp := false);
      }
      log := log + [Drained(i)];
      log := log + [BoardClosed(i)];
      runners := runners[i := r];
      assert log == old(log) + Halt(i, old(runners)[i].readerUp);
    }

    /** Stops the first `n` boards, of which the first `k` are running and the others are not. */
    method StopRunners(n: nat, ghost k: nat, ghost readerUp: bool)
      requires k <= n <= |runners|
      requires forall i :: 0 <= i < |runners| ==> runners[i].running == (i < k) && runners[i].readerUp == (i < k && readerUp)
      modifies `runners, `log
      ensures AllDown(runners) && SameBoards(runners, old(runners))
      ensures forall i :: 0 <= i < |runners| ==> runners[i].role == old(runners)[i].role
      ensures log == old(log) + Halted(k, readerUp)
    {
      hide Halt;
      assert log + [] == log;
      for j := 0 to n
        invariant SameBoards(runners, old(runners))
        invariant forall i :: 0 <= i < |runners| ==> runners[i].role == old(runners)[i].role
        invariant forall i :: 0 <= i < |runners| ==>
                    runners[i].running == (j <= i < k) && runners[i].readerUp == (j <= i < k && readerUp)
        invariant log == old(log) + Halted(if j < k then j else k, readerUp)
      {
        StopRunner(j);
      }
    }

    method TeardownWriter()
      modifies `queueClosed, `writerUp, `fileOpen, `log
      requires writerUp == anyWrite && (fileOpen ==> anyWrite)
      ensures queueClosed && !writerUp && !fileOpen
      ensures log == old(log) + Teardown(anyWrite)
    {
      queueClosed := true;
      log := log + [QueueClosed];
      if anyWrite {
        writerUp := false;
        log := log + [WriterJoined];
        log := log + [FileClosed];
      }
      fileOpen := false;
      assert log == old(log) + Teardown(anyWrite);
    }

    /** Arms or starts the boards in order, until one fails. */
    method BeginBoards(master: int) returns (ok: bool, k: nat)
      requires AllDown(runners) && master == MasterOf(runners)
      modifies `runners, `log
      ensures SameBoards(runners, old(runners)) && BeginsUpTo(runners, k) && (ok <==> k == |runners|)
      ensures forall i :: 0 <= i < |runners| ==> runners[i].running == (i < k) && !runners[i].readerUp
      ensures ok ==> forall i :: 0 <= i < |runners| ==> runners[i].role == Role(runners, i)
      ensures log == old(log) + Begun(runners, k)
      ensures MasterOf(runners) == old(MasterOf(runners))
    {
      hide MasterOf;
      ghost var was := runners;
      assert log + [] == log;
      var i := 0;
      while i < |runners|
        invariant 0 <= i <= |runners| && SameBoards(runners, was) && MasterOf(was) == master
        invariant forall j :: 0 <= j < i ==> runners[j].board.canBegin
        invariant forall j :: 0 <= j < |runners| ==> runners[j].running == (j < i) && !runners[j].readerUp
        invariant forall j :: 0 <= j < i ==> runners[j].role == Role(was, j)
        invariant log == old(log) + Begun(was, i)
      {
        var r := runners[i];
        if !r.board.canBegin {
          k := i;
          SameStart(runners, was);
          return false, k;
        }
        var synced := Synchronised(r.board);
        log := log + [if synced then Armed(i) else Started(i)];
        assert Begun(was, i + 1) == Begun(was, i) + [BeginEvent(was[i].board, i)];
        r := r.(running := true);
        r := r.(role := if !synced then Independent else if i == master then Master else Slave);
        runners := runners[i := r];
        i := i + 1;
      }
      k := i;
      SameStart(runners, was);
      ok := true;
    }

    method StartReaders()
      modifies `runners, `log
      requires forall i :: 0 <= i < |runners| ==> runners[i].running && !runners[i].readerUp
      ensures AllUp(runners) && SameBoards(runners, old(runners))
      ensures forall i :: 0 <= i < |runners| ==> runners[i].role == old(runners)[i].role
      ensures log == old(log) + ReadersUp(|runners|)
    {
      ghost var was := runners;
      assert log + [] == log;
      for i := 0 to |runners|
        invariant SameBoards(runners, was) && log == old(log) + ReadersUp(i)
        invariant forall j :: 0 <= j < |runners| ==>
                    runners[j].running && runners[j].readerUp == (j < i) && runners[j].role == was[j].role
      {
        runners := runners[i := runners[i].(readerUp := true)];
        log := log + [ReaderUp(i)];
        assert ReadersUp(i + 1) == ReadersUp(i) + [ReaderUp(i)];
      }
    }
  
    /** Begins the boards and fires the trigger; the readers come up last, or everything is undone. */
    method Launch(master: int) returns (ok: bool, ghost k: nat)
      requires AllDown(runners) && master == MasterOf(runners) && writerUp == anyWrite && (fileOpen ==> anyWrite)
      modifies `runners, `queueClosed, `writerUp, `fileOpen, `log
      ensures SameBoards(runners, old(runners)) && k <= |runners|
      ensures BeginsUpTo(old(runners), k) && (ok <==> CanStart(old(runners), k))
      ensures log == old(log) + Begun(old(runners), k)
                     + if ok then Trigger(old(runners)) + ReadersUp(|runners|) else Halted(k, false) + Teardown(anyWrite)
      ensures ok ==> AllUp(runners) && queueClosed == old(queueClosed) && writerUp == old(writerUp) && fileOpen == old(fileOpen)
                     && forall i :: 0 <= i < |runners| ==> runners[i].role == Role(old(runners), i)
      ensures !ok ==> AllDown(runners) && queueClosed && !writerUp && !fileOpen
    {
      hide MasterOf, Begun, Halted, Teardown, ReadersUp;
      ghost var was := runners;
      var reached;
      ok, reached := BeginBoards(master);
      k := reached;
      SameStart(runners, was);
      MasterIsRight(runners);
      ghost var log1 := log;
      if ok && master >= 0 {
        ok := runners[master].board.canTrigger;
      }
      if !ok {
        StopRunners(if reached < |runners| then reached + 1 else reached, k, false);
        TeardownWriter();
        assert log1 + Halted(k, false) + Teardown(anyWrite) == log1 + (Halted(k, false) + Teardown(anyWrite));
        return;
      }
      log := log + (if master >= 0 then [Triggered(master)] else []);
      StartReaders();
      assert log1 + Trigger(was) + ReadersUp(|was|) == log1 + (Trigger(was) + ReadersUp(|was|));
    }

    /** The start of a prepared run: align, writer up, launch. */
    method StartPrepared() returns (ok: bool, ghost order: seq<nat>, ghost k: nat)
      requires Valid() && !running && prepared
      modifies this
      ensures Valid() && ok == running && prepared && anyWrite == old(anyWrite)
      ensures SameBoards(runners, old(runners))
      ensures RightOrder(old(runners), order) && BeginsUpTo(old(runners), k) && k <= |old(runners)|
      ensures ok <==> CanStart(old(runners), k)
      ensures log == old(log) + StartLog(old(runners), anyWrite, order, k, ok)
      ensures ok ==> forall i :: 0 <= i < |runners| ==> runners[i].role == Role(old(runners), i)
      ensures queueClosed == (old(queueClosed) || !ok)
      ensures calls == old(calls) + [if ok then StartSucceeded else StartFailed]
      ensures !ok ==> StopsInOrder(log[|old(log)|..], k, false, anyWrite)
    {
      hide MasterOf, RightOrder, Alignment, AnyWrites, Begun, Halted, Teardown, ReadersUp, Trigger, TornDown, BeginsUpTo, CanStart, StopsInOrder;
      NextCall(calls);
      ghost var was := runners;
      order := AlignClockChain();
      writerUp := anyWrite;
      log := log + (if anyWrite then [WriterUp] else []);
      var master := MasterIndex();
      ok, k := Launch(master);
      SameMaster(runners, was);
      Assembled(old(log), Alignment(order), if anyWrite then [WriterUp] else [], Begun(was, k),
                if ok then Trigger(was) + ReadersUp(|was|) else Halted(k, false) + Teardown(anyWrite));
      running := ok;
      calls := calls + [if ok then StartSucceeded else StartFailed];
      assert log[|old(log)|..] == StartLog(was, anyWrite, order, k, ok);
      FailedStartStops(was, anyWrite, order, k);
    }

    /** The whole start. On success the calls made are exactly those of StartLog, every board has its role
        and its reader, and the run is on file unless an earlier teardown has closed the queue for good. On
        failure the boards begun so far have been stopped and no thread is left. */
    method Start() returns (ok: bool, ghost es: seq<Event>, ghost order: seq<nat>, ghost k: nat)
      requires Valid()
      modifies this
      ensures Valid() && ok == running && anyWrite == old(anyWrite)
      ensures ok ==> writerUp == anyWrite && forall i :: 0 <= i < |runners| ==> runners[i].running && runners[i].readerUp
      ensures !ok ==> !writerUp && forall i :: 0 <= i < |runners| ==> !runners[i].running && !runners[i].readerUp
      ensures SameBoards(runners, old(runners)) && MasterOf(runners) == old(MasterOf(runners))
      ensures old(running) ==> ok && log == old(log) && runners == old(runners)
      ensures !old(running) ==> (prepared <==> old(prepared) || CanPrepare(old(runners), anyWrite, canOpenFile))
      ensures !old(running) && !prepared ==> !ok && OnlyPreparation(es) && log == old(log) + es
      ensures !old(running) && prepared ==>
                && OnlyPreparation(es) && RightOrder(old(runners), order) && BeginsUpTo(old(runners), k)
                && (ok <==> CanStart(old(runners), k))
                && log == old(log) + es + StartLog(old(runners), anyWrite, order, k, ok)
      ensures !old(running) && prepared && !ok ==> StopsInOrder(log[|old(log)|..], k, false, anyWrite)
      ensures !old(running) && ok ==> forall i :: 0 <= i < |runners| ==> runners[i].role == Role(old(runners), i)
      ensures !old(running) && prepared ==> queueClosed == (old(queueClosed) || !ok)
      ensures calls == old(calls) + [if old(running) then AlreadyRunning else if !prepared then Unprepared
                                     else if ok then StartSucceeded else StartFailed]
      ensures ok && !old(running) && anyWrite ==> (Recording() <==> !TornDown(old(calls)))
    {
      hide MasterOf, RightOrder, AnyWrites, StartLog, TornDown, CanPrepare, BeginsUpTo, CanStart, OnlyPreparation, StopsInOrder;
      NextCall(calls);
      ghost var was := runners;
      es, order, k := [], [], 0;
      if running {
        calls := calls + [AlreadyRunning];
        return true, es, order, k;
      }
      ok, es := Prepare();
      if !ok {
        calls := calls + [Unprepared];
        return;
      }
      ghost var log1 := log;
      ok, order, k := StartPrepared();
      SameMaster(runners, was);
      if !ok {
        assert log[|old(log)|..] == es + log[|log1|..];
        PreparationIsStart(es);
        StopsBehind(es, log[|log1|..], k, false, anyWrite);
      }
    }

    /** Stop: every board in order, then the queue, the writer and the file. */
    method Stop()
      requires Valid()
      modifies this
      ensures Valid() && !running && SameBoards(runners, old(runners))
      ensures !writerUp && forall i :: 0 <= i < |runners| ==> !runners[i].running && !runners[i].readerUp
      ensures !old(running) ==> log == old(log) && runners == old(runners)
      ensures old(running) ==> log == old(log) + Halted(|runners|, true) + Teardown(anyWrite) && queueClosed
      ensures old(running) ==> StopsInOrder(log[|old(log)|..], |runners|, true, anyWrite)
      ensures calls == old(calls) + [if old(running) then Stopped else NothingToStop]
      ensures anyWrite == old(anyWrite) && prepared == old(prepared)
    {
      hide AnyWrites, TornDown, Halted, Teardown, StopsInOrder;
      NextCall(calls);
      if !running {
        calls := calls + [NothingToStop];
        return;
      }
      ghost var was := runners;
      StopRunners(|runners|, |runners|, true);
      TeardownWriter();
      SameWrites(runners, was);
      running := false;
      calls := calls + [Stopped];
      StopKeepsOrder(|runners|, true, anyWrite);
      assert log[|old(log)|..] == Halted(|runners|, true) + Teardown(anyWrite);
    }
  }

  lemma PreparationIsStart(es: seq<Event>)
    requires OnlyPreparation(es)
    ensures OnlyStart(es)
  {
  }

  /** A start that failed undoes what it did in the order of a stop. */
  lemma FailedStartStops(rs: seq<Runner>, anyWrite: bool, order: seq<nat>, k: nat)
    requires k <= |rs|
    ensures StopsInOrder(StartLog(rs, anyWrite, order, k, false), k, false, anyWrite)
  {
    var undo := Halted(k, false) + Teardown(anyWrite);
    BeforeIsStart(rs, anyWrite, order, k);
    assert StartLog(rs, anyWrite, order, k, false) == BeforeUndoing(rs, anyWrite, order, k) + undo;
    hide Halted, Teardown, StopsInOrder, BeforeUndoing, StartLog;
    StopKeepsOrder(k, false, anyWrite);
    StopsBehind(BeforeUndoing(rs, anyWrite, order, k), undo, k, false, anyWrite);
  }

  lemma BeforeIsStart(rs: seq<Runner>, anyWrite: bool, order: seq<nat>, k: nat)
    requires k <= |rs|
    ensures OnlyStart(BeforeUndoing(rs, anyWrite, order, k))
  {
  }

  lemma NextCall(calls: seq<Outcome>)
    ensures forall o :: TornDown(calls + [o]) <==> TornDown(calls) || o == StartFailed || o == Stopped
  {
  }

  lemma Assembled(a: seq<Event>, b: seq<Event>, c: seq<Event>, d: seq<Event>, e: seq<Event>)
    ensures a + b + c + d + e == a + (b + c + d + e)
  {
  }

  lemma SameMaster(a: seq<Runner>, b: seq<Runner>)
    requires SameBoards(a, b)
    ensures MasterOf(a) == MasterOf(b)
    ensures AnyWrites(a) == AnyWrites(b)
  {
    SameStart(a, b);
    SameWrites(a, b);
  }

  lemma SameWrites(a: seq<Runner>, b: seq<Runner>)
    requires SameBoards(a, b)
    ensures AnyWrites(a) == AnyWrites(b)
  {
    if AnyWrites(a) {
      var i :| 0 <= i < |a| && a[i].board.writes;
      assert b[i].board.writes;
    }
    if AnyWrites(b) {
      var i :| 0 <= i < |b| && b[i].board.writes;
      assert a[i].board.writes;
    }
  }

  // ----- what the calls of a start guarantee -----

  /** The phases of a start, in the order they must come. */
  function Phase(e: Event): nat {
    match e
    case Prepared(_) => 0
    case FileOpened => 0
    case Realigned(_) => 1
    case WriterUp => 2
    case Armed(_) => 3
    case Started(_) => 3
    case Triggered(_) => 4
    case ReaderUp(_) => 5
    case _ => 6
  }

  predicate InPhases(es: seq<Event>) {
    forall p, q :: 0 <= p < q < |es| ==> Phase(es[p]) <= Phase(es[q])
  }

  predicate PhasesWithin(es: seq<Event>, lo: nat, hi: nat) {
    forall p :: 0 <= p < |es| ==> lo <= Phase(es[p]) <= hi
  }

  lemma PhasesJoin(a: seq<Event>, b: seq<Event>, lo: nat, mid: nat, hi: nat)
    requires lo <= mid <= hi && InPhases(a) && InPhases(b) && PhasesWithin(a, lo, mid) && PhasesWithin(b, mid, hi)
    ensures InPhases(a + b) && PhasesWithin(a + b, lo, hi)
  {
    hide Phase;
  }

  lemma {:induction false} HaltedPhase(k: nat, readerUp: bool)
    ensures InPhases(Halted(k, readerUp)) && PhasesWithin(Halted(k, readerUp), 6, 6)
  {
    if k > 0 {
      HaltedPhase(k - 1, readerUp);
      PhasesJoin(Halted(k - 1, readerUp), Halt(k - 1, readerUp), 6, 6, 6);
    }
  }

  /** Whether it succeeds or fails: the re-align comes before every arm and start, these before the
      trigger, and no reader exists before the trigger. */
  lemma StartKeepsOrder(rs: seq<Runner>, anyWrite: bool, es: seq<Event>, order: seq<nat>, k: nat, ok: bool)
    requires k <= |rs| && OnlyPreparation(es)
    ensures InPhases(es + StartLog(rs, anyWrite, order, k, ok))
  {
    hide MasterOf, Halted, Begun, Phase, InPhases, PhasesWithin, Trigger, ReadersUp, Teardown, Alignment;
    var up := if anyWrite then [WriterUp] else [];
    var rest := if ok then Trigger(rs) + ReadersUp(|rs|) else Halted(k, false) + Teardown(anyWrite);
    LastPhases(rs, anyWrite, k, ok);
    BegunPhase(rs, k);
    FirstPhases(anyWrite, order, es);
    PhasesJoin(Alignment(order), up, 1, 2, 2);
    PhasesJoin(Alignment(order) + up, Begun(rs, k), 1, 3, 3);
    PhasesJoin(Alignment(order) + up + Begun(rs, k), rest, 1, 3, 6);
    PhasesJoin(es, StartLog(rs, anyWrite, order, k, ok), 0, 1, 6);
  }

  lemma FirstPhases(anyWrite: bool, order: seq<nat>, es: seq<Event>)
    requires OnlyPreparation(es)
    ensures InPhases(es) && PhasesWithin(es, 0, 1)
    ensures InPhases(Alignment(order)) && PhasesWithin(Alignment(order), 1, 2)
    ensures var up := if anyWrite then [WriterUp] else []; InPhases(up) && PhasesWithin(up, 2, 2)
    ensures forall a :: PhasesWithin(a, 1, 2) ==> PhasesWithin(a, 1, 3)
    ensures forall a :: PhasesWithin(a, 4, 6) ==> PhasesWithin(a, 3, 6)
  {
  }

  lemma BegunPhase(rs: seq<Runner>, k: nat)
    requires k <= |rs|
    ensures InPhases(Begun(rs, k)) && PhasesWithin(Begun(rs, k), 3, 3)
  {
  }

  lemma LastPhases(rs: seq<Runner>, anyWrite: bool, k: nat, ok: bool)
    ensures var rest := if ok then Trigger(rs) + ReadersUp(|rs|) else Halted(k, false) + Teardown(anyWrite);
            InPhases(rest) && PhasesWithin(rest, 4, 6)
  {
    hide MasterOf, Halted, Trigger, ReadersUp, Teardown, Phase, InPhases, PhasesWithin;
    if ok {
      ShortPhases(rs, anyWrite);
      PhasesJoin(Trigger(rs), ReadersUp(|rs|), 4, 5, 5);
      Widen(Trigger(rs) + ReadersUp(|rs|), 4, 5);
    } else {
      HaltedPhase(k, false);
      ShortPhases(rs, anyWrite);
      PhasesJoin(Halted(k, false), Teardown(anyWrite), 6, 6, 6);
      Widen(Halted(k, false) + Teardown(anyWrite), 6, 6);
    }
  }

  lemma Widen(es: seq<Event>, lo: nat, hi: nat)
    requires 4 <= lo && hi <= 6 && PhasesWithin(es, lo, hi)
    ensures PhasesWithin(es, 4, 6)
  {
    hide Phase;
  }

  lemma ShortPhases(rs: seq<Runner>, anyWrite: bool)
    ensures InPhases(Trigger(rs)) && PhasesWithin(Trigger(rs), 4, 5)
    ensures InPhases(ReadersUp(|rs|)) && PhasesWithin(ReadersUp(|rs|), 5, 5)
    ensures InPhases(Teardown(anyWrite)) && PhasesWithin(Teardown(anyWrite), 6, 6)
  {
    hide MasterOf;
  }

  lemma {:induction false} HaltedStops(k: nat, readerUp: bool)
    ensures forall i :: 0 <= i < k ==> BoardStopped(i) in Halted(k, readerUp) && BoardClosed(i) in Halted(k, readerUp)
    ensures forall i :: k <= i ==> BoardStopped(i) !in Halted(k, readerUp)
    ensures forall i :: ReaderUp(i) !in Halted(k, readerUp)
  {
    if k > 0 {
      HaltedStops(k - 1, readerUp);
      assert BoardStopped(k - 1) in Halt(k - 1, readerUp) && BoardClosed(k - 1) in Halt(k - 1, readerUp);
    }
  }

  /** What a start does before anything is undone, and what undoes it. */
  function BeforeUndoing(rs: seq<Runner>, anyWrite: bool, order: seq<nat>, k: nat): seq<Event>
    requires k <= |rs|
  {
    Alignment(order) + (if anyWrite then [WriterUp] else []) + Begun(rs, k)
  }

  lemma UndoingPhase(rs: seq<Runner>, anyWrite: bool, k: nat)
    ensures PhasesWithin(Halted(k, false) + Teardown(anyWrite), 6, 6)
  {
    hide Phase, Halted, Teardown;
    HaltedPhase(k, false);
    ShortPhases(rs, anyWrite);
    PhasesJoin(Halted(k, false), Teardown(anyWrite), 6, 6, 6);
  }

  lemma BegunIsBelow(rs: seq<Runner>, anyWrite: bool, order: seq<nat>, k: nat, p: nat, i: nat)
    requires k <= |rs|
    requires var es := BeforeUndoing(rs, anyWrite, order, k); p < |es| && (es[p] == Armed(i) || es[p] == Started(i))
    ensures i < k
  {
  }

  lemma NoReaderBefore(rs: seq<Runner>, anyWrite: bool, order: seq<nat>, k: nat)
    requires k <= |rs|
    ensures forall q :: 0 <= q < |BeforeUndoing(rs, anyWrite, order, k)| ==> !BeforeUndoing(rs, anyWrite, order, k)[q].ReaderUp?
  {
  }

  /** A failed start stops, later on, every board it armed or started, and never starts a reader. */
  lemma FailedStartUndoes(rs: seq<Runner>, anyWrite: bool, order: seq<nat>, k: nat, p: nat, i: nat)
    requires k <= |rs|
    requires var es := StartLog(rs, anyWrite, order, k, false);
             p < |es| && (es[p] == Armed(i) || es[p] == Started(i))
    ensures var es := StartLog(rs, anyWrite, order, k, false);
            && (exists q :: p < q < |es| && es[q] == BoardStopped(i))
            && forall q :: 0 <= q < |es| ==> !es[q].ReaderUp?
  {
    var before, after := BeforeUndoing(rs, anyWrite, order, k), Halted(k, false) + Teardown(anyWrite);
    var es := StartLog(rs, anyWrite, order, k, false);
    assert es == before + after;
    UndoingPhase(rs, anyWrite, k);
    NoReaderBefore(rs, anyWrite, order, k);
    hide Halted, BeforeUndoing, StartLog, Teardown;
    LaterPhase(before, after);
    assert p < |before|;
    BegunIsBelow(rs, anyWrite, order, k, p, i);
    var h := StopAt(k, i);
    assert after[h] == BoardStopped(i);
    assert es[|before| + h] == BoardStopped(i);
  }

  lemma LaterPhase(before: seq<Event>, after: seq<Event>)
    requires PhasesWithin(after, 6, 6)
    ensures forall q :: |before| <= q < |before + after| ==> Phase((before + after)[q]) == 6
  {
    hide Phase;
    forall q | |before| <= q < |before + after|
      ensures Phase((before + after)[q]) == 6
    {
      assert (before + after)[q] == after[q - |before|];
    }
  }

  lemma StopAt(k: nat, i: nat) returns (h: nat)
    requires i < k
    ensures h < |Halted(k, false)| && Halted(k, false)[h] == BoardStopped(i)
  {
    HaltedStops(k, false);
    h :| 0 <= h < |Halted(k, false)| && Halted(k, false)[h] == BoardStopped(i);
  }

  /** What a start does, by its events: a board with start mode 0 is started, any other is armed, and no
      board from the first failure on; the writer comes up if a board writes; the chain is aligned if it has
      two boards; on success the master alone fires the trigger and every reader comes up. */
  lemma StartDoes(rs: seq<Runner>, anyWrite: bool, order: seq<nat>, k: nat, ok: bool)
    requires k <= |rs| && (ok ==> k == |rs|)
    ensures var es := StartLog(rs, anyWrite, order, k, ok);
            && (forall i: nat :: Armed(i) in es <==> i < k && rs[i].board.startMode != 0)
            && (forall i: nat :: Started(i) in es <==> i < k && rs[i].board.startMode == 0)
            && (WriterUp in es <==> anyWrite)
            && (forall o :: Realigned(o) in es <==> o == order && |order| >= 2)
            && (forall i: nat :: Triggered(i) in es <==> ok && i == MasterOf(rs))
            && (forall i: nat :: ReaderUp(i) in es <==> ok && i < |rs|)
  {
    hide MasterOf, StartLog, Halted, Begun, ReadersUp, Teardown;
    BegunDoes(rs, k);
    ReadersDo(|rs|);
    HaltedHasNoStart(k);
    TeardownHasNoStart(anyWrite);
    StartHas(rs, anyWrite, order, k, ok);
  }

  /** The phases a start runs through. */
  lemma StartHas(rs: seq<Runner>, anyWrite: bool, order: seq<nat>, k: nat, ok: bool)
    requires k <= |rs|
    ensures forall e :: e in StartLog(rs, anyWrite, order, k, ok) <==>
                          || e in Alignment(order) || (anyWrite && e == WriterUp) || e in Begun(rs, k)
                          || (ok && (e in Trigger(rs) || e in ReadersUp(|rs|)))
                          || (!ok && (e in Halted(k, false) || e in Teardown(anyWrite)))
  {
    hide MasterOf, Halted, Begun, ReadersUp, Teardown, Alignment, Trigger;
    var es := StartLog(rs, anyWrite, order, k, ok);
    var last := if ok then Trigger(rs) + ReadersUp(|rs|) else Halted(k, false) + Teardown(anyWrite);
    assert forall e :: e in es <==> e in Alignment(order) || (anyWrite && e == WriterUp) || e in Begun(rs, k) || e in last;
  }

  lemma BegunDoes(rs: seq<Runner>, k: nat)
    requires k <= |rs|
    ensures forall i: nat :: Armed(i) in Begun(rs, k) <==> i < k && rs[i].board.startMode != 0
    ensures forall i: nat :: Started(i) in Begun(rs, k) <==> i < k && rs[i].board.startMode == 0
    ensures forall e :: e in Begun(rs, k) ==> e.Armed? || e.Started?
  {
    var es := Begun(rs, k);
    forall i: nat | i < k
      ensures es[i] in es && es[i] == if rs[i].board.startMode != 0 then Armed(i) else Started(i)
    {
    }
  }

  lemma ReadersDo(n: nat)
    ensures forall e :: e in ReadersUp(n) <==> e.ReaderUp? && e.i < n
  {
    forall i: nat | i < n
      ensures ReaderUp(i) in ReadersUp(n)
    {
      assert ReadersUp(n)[i] == ReaderUp(i);
    }
  }

  lemma {:induction false} HaltedHasNoStart(k: nat)
    ensures forall e :: e in Halted(k, false) ==> !StartEvent(e)
  {
    if k > 0 {
      HaltedHasNoStart(k - 1);
    }
  }

  lemma TeardownHasNoStart(anyWrite: bool)
    ensures forall e :: e in Teardown(anyWrite) ==> !StartEvent(e)
  {
  }

  /** After a successful start exactly one board is Master if any is synchronised, and none otherwise. */
  lemma OneMaster(rs: seq<Runner>, after: seq<Runner>)
    requires |after| == |rs| && forall i :: 0 <= i < |rs| ==> after[i].role == Role(rs, i)
    ensures forall i :: 0 <= i < |rs| ==> (after[i].role == Master <==> i == MasterOf(rs))
    ensures (exists i :: 0 <= i < |rs| && after[i].role == Master) <==> exists i :: 0 <= i < |rs| && rs[i].board.startMode != 0
    ensures forall i :: 0 <= i < |rs| ==> (after[i].role == Independent <==> rs[i].board.startMode == 0)
  {
    hide MasterOf;
    MasterIsRight(rs);
    if MasterOf(rs) >= 0 {
      assert after[MasterOf(rs)].role == Master;
    }
  }

  /** A running object with a writing board records if and only if no prepared start has failed before
      and no run has been stopped: queue and file are closed for good by either. */
  lemma RecordsIff(d: Daq)
    requires d.Valid() && d.running && d.anyWrite
    ensures d.Recording() <==> !TornDown(d.calls)
  {
    hide AnyWrites;
  }

  /** So a start that follows a failed one can succeed with nobody recording. Here the only board,
      software-started, fails to start once. */
  method RetryRecordsNothing(d: Daq, b: Board) returns (first: bool, second: bool)
    requires d.Valid() && !d.running && !d.prepared && d.canOpenFile
    requires d.runners == [Runner(b, false, false, Independent)]
    requires b.canPrepare && !b.canBegin && b.startMode == 0 && b.writes
    modifies d
    ensures !first && second
    ensures d.running && d.anyWrite && d.queueClosed && !d.fileOpen
  {
    hide Begun, Halted, Teardown, ReadersUp, Trigger, StartLog, RightOrder;
    ghost var es, order, k;
    assert d.runners[0].board.writes;
    first, es, order, k := d.Start();
    var r := d.runners[0];
    d.runners := [r.(board := r.board.(canBegin := true))];
    assert d.runners[0].board.writes;
    MasterIsRight(d.runners);
    second, es, order, k := d.Start();
  }

  /** And a second run on the same object records nothing either, whatever its boards. */
  method SecondRunRecordsNothing(d: Daq) returns (ok: bool)
    requires d.Valid() && d.running && d.anyWrite
    modifies d
    ensures d.Valid() && !d.Recording()
    ensures ok ==> d.running && d.anyWrite && d.queueClosed && !d.fileOpen
  {
    hide Begun, Halted, Teardown, ReadersUp, Trigger, StartLog, RightOrder, AnyWrites, MasterOf;
    d.Stop();
    ghost var es, order, k;
    ok, es, order, k := d.Start();
  }
}
