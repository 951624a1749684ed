/** Aligning a daisy-chained clock: which boards, in which order, and what a good report proves about
    the boards' PLLs. */
module ClockSync {
  import opened Words
  import opened Arithmetic

  const SOFTWARE_CLOCK_SYNC: nat := 0x813C
  const ACQUISITION_STATUS: nat := 0x8104
  const VME_STATUS: nat := 0xEF04

  // ----- which boards -----

  /** Acquisition Control bit 6: the board takes its clock from CLK-IN. */
  predicate External(acq: Word) { Bit(acq, BIT_6) }

  predicate AnyExternal(acqs: seq<Word>) { exists i :: 0 <= i < |acqs| && External(acqs[i]) }

  predicate HasMaster(acqs: seq<Word>, master: int) { 0 <= master < |acqs| }

  predicate InChain(acqs: seq<Word>, master: int, i: nat) {
    i < |acqs| && (External(acqs[i]) || i == master)
  }

  /** `order` is increasing from position `from` on. */
  predicate Increasing(order: seq<nat>, from: nat) {
    forall p, q :: from <= p < q < |order| ==> order[p] < order[q]
  }

  /** Master first, then in board order exactly the boards on CLK-IN; no board twice. */
  ghost predicate ChainOrder(acqs: seq<Word>, master: int, order: seq<nat>) {
    && (forall i: nat :: i in order <==> InChain(acqs, master, i))
    && (HasMaster(acqs, master) ==> order != [] && order[0] == master)
    && Increasing(order, if HasMaster(acqs, master) then 1 else 0)
    && (HasMaster(acqs, master) ==> forall p :: 1 <= p < |order| ==> order[p] != master)
  }

  method ClockChainOrder(acqs: seq<Word>, master: int) returns (order: seq<nat>)
    ensures AnyExternal(acqs) ==> ChainOrder(acqs, master, order)
    ensures !AnyExternal(acqs) ==> order == []
  {
    hide Bit;
    order := [];
    var anyExternal := false;
    for i := 0 to |acqs|
      invariant anyExternal <==> exists k :: 0 <= k < i && External(acqs[k])
    {
      if External(acqs[i]) {
        anyExternal := true;
      }
    }
    if !anyExternal {
      return;
    }
    var haveMaster := 0 <= master < |acqs|;
    if haveMaster {
      order := order + [master];
    }
    ghost var first := if haveMaster then 1 else 0;
    for i := 0 to |acqs|
      invariant |order| >= first && (haveMaster ==> order[0] == master)
      invariant forall k: nat :: k in order <==> InChain(acqs, master, k) && (k < i || k == master)
      invariant Increasing(order, first)
      invariant forall p :: first <= p < |order| ==> order[p] < i && order[p] != master
    {
      if haveMaster && i == master {
        continue;
      }
      if External(acqs[i]) {
        order := order + [i];
      }
    }
  }

  /** No board occurs twice, and there is only one such order. */
  lemma ChainOrderIsUnique(acqs: seq<Word>, master: int, a: seq<nat>, b: seq<nat>)
    requires ChainOrder(acqs, master, a) && ChainOrder(acqs, master, b)
    ensures (forall p, q :: 0 <= p < q < |a| ==> a[p] != a[q]) && a == b
  {
    hide External;
    var from := if HasMaster(acqs, master) then 1 else 0;
    forall x: nat
      ensures x in a[from..] <==> x in b[from..]
    {
      assert x in a[from..] <==> InChain(acqs, master, x) && x != master by {
        TailMembers(a, from, x, master);
      }
      assert x in b[from..] <==> InChain(acqs, master, x) && x != master by {
        TailMembers(b, from, x, master);
      }
    }
    SortedUnique(a[from..], b[from..]);
    assert a == a[..from] + a[from..] && b == b[..from] + b[from..];
  }

  lemma TailMembers(a: seq<nat>, from: nat, x: nat, master: int)
    requires from <= 1 && from <= |a| && (from == 1 ==> a[0] == master)
    requires forall p :: from <= p < |a| ==> a[p] != master || from == 0
    requires from == 0 ==> master !in a
    ensures x in a[from..] <==> x in a && x != master
  {
    if x in a && x != master {
      var p :| 0 <= p < |a| && a[p] == x;
      assert a[from..][p - from] == x;
    }
  }

  lemma {:induction false} SortedUnique(a: seq<nat>, b: seq<nat>)
    requires Increasing(a, 0) && Increasing(b, 0) && forall x: nat :: x in a <==> x in b
    ensures a == b
    decreases |a|
  {
    assert a != [] ==> a[0] in a && a[0] in b;
    assert b != [] ==> b[0] in b && b[0] in a;
    if a != [] {
      assert a[0] == b[0];
      forall x: nat
        ensures x in a[1..] <==> x in b[1..]
      {
        assert x in a[1..] <==> x in a && x != a[0];
        assert x in b[1..] <==> x in b && x != b[0];
      }
      SortedUnique(a[1..], b[1..]);
    }
  }

  // ----- the boards, as the register accesses see them -----

  /** One register access and when it happened. */
  datatype Access = Wrote(board: nat, address: nat, ok: bool, at: nat)
                  | ReadOut(board: nat, address: nat, ok: bool, value: Word, at: nat)

  /** A pause, and how many accesses came before it. */
  datatype Nap = Nap(ms: int, after: nat)

  /** What the world does at one instant: the PLLs that lose lock just before it, and how the access then
      turns out; a failed one may still have reached the board. */
  datatype Moment = Moment(unlocks: set<nat>, ok: bool, reaches: bool, value: Word)

  /** The sticky bit is forced into the value a board answers with. */
  function WithBit7(v: Word, set7: bool): (w: Word)
    ensures Bit(w, BIT_7) <==> set7
  {
    var w: Word := v % 0x80 + v / 0x100 * 0x100 + (if set7 then 0x80 else 0);
    Bit7Set(v, w, if set7 then 1 else 0);
    w
  }

  lemma Bit7Set(v: Word, w: Word, flag: nat)
    requires flag < 2 && w == v % 0x80 + 0x100 * (v / 0x100) + 0x80 * flag
    ensures Bit(w, BIT_7) <==> flag == 1
  {
    hide Bit, Pow2;
    PowerTable();
    FlagRead(w, BIT_7, 0x80, v % 0x80, flag, v / 0x100);
  }

  /** Any environment: whatever happens over time, for all boards. */
  class Bench {
    const script: nat -> Moment
    var now: nat
    var unlocked: set<nat>      // the latch of each board: set by an unlock, cleared by reading 0xEF04
    ghost var trace: seq<Access>
    ghost var naps: seq<Nap>

    constructor (script: nat -> Moment)
      ensures this.script == script && trace == [] && naps == []
    {
      this.script := script;
      now, unlocked, trace, naps := 0, {}, [], [];
    }

    method Write(b: nat, address: nat, value: Word) returns (ok: bool)
      modifies `now, `unlocked, `trace
      ensures now == old(now) + 1 && unlocked == old(unlocked) + script(old(now)).unlocks
      ensures ok == script(old(now)).ok && trace == old(trace) + [Wrote(b, address, ok, old(now))]
    {
      var m := script(now);
      unlocked := unlocked + m.unlocks;
      ok := m.ok;
      trace := trace + [Wrote(b, address, ok, now)];
      now := now + 1;
    }

    method Read(b: nat, address: nat) returns (ok: bool, value: Word)
      modifies `now, `unlocked, `trace
      ensures now == old(now) + 1
      ensures ok == script(old(now)).ok && trace == old(trace) + [ReadOut(b, address, ok, value, old(now))]
      ensures var latched := old(unlocked) + script(old(now)).unlocks;
              unlocked == if address == VME_STATUS && (ok || script(old(now)).reaches) then latched - {b} else latched
      ensures address == ACQUISITION_STATUS ==> (Bit(value, BIT_7) <==> b !in unlocked)
    {
      var m := script(now);
      unlocked := unlocked + m.unlocks;
      ok := m.ok;
      value := m.value;
      if address == ACQUISITION_STATUS {
        value := WithBit7(m.value, b !in unlocked);
      }
      if address == VME_STATUS && (m.ok || m.reaches) {
        unlocked := unlocked - {b};
      }
      trace := trace + [ReadOut(b, address, ok, value, now)];
      now := now + 1;
    }

    /** Time passes, PLLs may lose lock. */
    method Sleep(ms: int)
      modifies `now, `unlocked, `naps
      ensures now == old(now) + 1 && unlocked == old(unlocked) + script(old(now)).unlocks
      ensures naps == old(naps) + [Nap(ms, |trace|)]
    {
      unlocked := unlocked + script(now).unlocks;
      now := now + 1;
      naps := naps + [Nap(ms, |trace|)];
    }
  }

  /** Board `b` keeps its lock after instant `since`, up to and including `until`. */
  ghost predicate KeepsLock(script: nat -> Moment, b: nat, since: nat, until: nat) {
    forall t: nat :: since < t <= until ==> b !in script(t).unlocks
  }

  // ----- the procedure -----

  datatype ChainBoard = ChainBoard(id: nat, master: bool, canWrite: bool, canRead: bool)

  datatype LockState = LockState(id: nat, master: bool, synced: bool, statusRead: bool, ready: bool, stable: bool, external: bool) {
    predicate Ok() { synced && statusRead && ready && stable && (master || external) }
  }

  datatype Options = Options(settleMs: Int32, readyTimeoutMs: Int32, pollMs: Int32, stableMs: Int32)

  predicate IsRead(a: Access, b: nat, address: nat) { a.ReadOut? && a.board == b && a.address == address }

  predicate Ready(v: Word) { Bit(v, BIT_8) }

  /** What the reads of one board say: the last one is a good status, right after the latch was re-armed. */
  predicate Locked(polls: seq<Access>, b: nat, master: bool) {
    var n := |polls|;
    && n >= 3
    && IsRead(polls[n - 2], b, VME_STATUS) && IsRead(polls[n - 1], b, ACQUISITION_STATUS)
    && polls[n - 1].ok && Ready(polls[n - 1].value) && Bit(polls[n - 1].value, BIT_7)
    && (master || Bit(polls[n - 1].value, BIT_5))
  }

  predicate OnlyReads(polls: seq<Access>, b: nat) {
    forall i :: 0 <= i < |polls| ==> polls[i].ReadOut? && polls[i].board == b
  }

  predicate SomeStatusRead(polls: seq<Access>) {
    exists i :: 0 <= i < |polls| && polls[i].ReadOut? && polls[i].ok
  }

  /** The registers and bits by their numbers: Software Clock Sync 0x813C, Acquisition Status 0x8104 with
      the reference on CLK-IN in bit 5, no unlock in bit 7 and Board Ready in bit 8, VME Status 0xEF04, and
      the external clock in bit 6 of Acquisition Control. */
  lemma ByTheirNumbers(v: Word, polls: seq<Access>, b: nat, master: bool)
    ensures External(v) <==> v / 0x40 % 2 == 1
    ensures Ready(v) <==> v / 0x100 % 2 == 1
    ensures Locked(polls, b, master) <==>
              var n := |polls|;
              && n >= 3
              && polls[n - 2].ReadOut? && polls[n - 2].board == b && polls[n - 2].address == 0xEF04
              && polls[n - 1].ReadOut? && polls[n - 1].board == b && polls[n - 1].address == 0x8104 && polls[n - 1].ok
              && polls[n - 1].value / 0x100 % 2 == 1 && polls[n - 1].value / 0x80 % 2 == 1
              && (master || polls[n - 1].value / 0x20 % 2 == 1)
    ensures SOFTWARE_CLOCK_SYNC == 0x813C
  {
    hide Bit;
    StatusBits(v);
    if |polls| >= 1 && polls[|polls| - 1].ReadOut? {
      StatusBits(polls[|polls| - 1].value);
    }
  }

  lemma StatusBits(v: Word)
    ensures Bit(v, BIT_5) <==> v / 0x20 % 2 == 1
    ensures Bit(v, BIT_6) <==> v / 0x40 % 2 == 1
    ensures Bit(v, BIT_7) <==> v / 0x80 % 2 == 1
    ensures Bit(v, BIT_8) <==> v / 0x100 % 2 == 1
  {
    PowerTable();
    ShiftsAreProducts(v, 5);
    ShiftsAreProducts(v, 6);
    ShiftsAreProducts(v, 7);
    ShiftsAreProducts(v, 8);
  }

  // ----- the wait for Board Ready -----

  /** The answer to one poll of the status. */
  datatype Poll = Poll(ok: bool, value: Word)

  /** `Overflowed` is the end of defined behaviour: the int that counts the waiting time has no next value. */
  datatype Wait = Waiting(waited: Int32) | Over | Overflowed

  predicate IsReady(a: Poll) { a.ok && Ready(a.value) }

  predicate FitsInt(x: int) { -0x8000_0000 <= x <= MAX_INT }

  /** One turn of the polling loop. */
  function PollStep(opt: Options, w: Wait, a: Poll): Wait {
    if !w.Waiting? then w
    else if IsReady(a) || w.waited >= opt.readyTimeoutMs then Over
    else
      var next: int := w.waited as int + opt.pollMs as int;
      if FitsInt(next) then Waiting(next) else Overflowed
  }

  function AfterPolls(opt: Options, answers: seq<Poll>): Wait {
    if answers == [] then Waiting(0) else PollStep(opt, AfterPolls(opt, answers[..|answers| - 1]), answers[|answers| - 1])
  }

  function FirstAnswers(script: nat -> Poll, n: nat): seq<Poll> { seq(n, i requires 0 <= i < n => script(i)) }

  /** Where the loop is after `n` turns against a script of answers. */
  function After(opt: Options, script: nat -> Poll, n: nat): Wait { AfterPolls(opt, FirstAnswers(script, n)) }

  /** Against this script of answers the loop is left at some turn. */
  ghost predicate WaitEnds(opt: Options, script: nat -> Poll) {
    exists n: nat :: After(opt, script, n).Over?
  }

  ghost predicate WaitOverflows(opt: Options, script: nat -> Poll) {
    exists n: nat :: After(opt, script, n).Overflowed?
  }

  ghost predicate NeverReady(script: nat -> Poll) { forall k: nat :: !IsReady(script(k)) }

  /** The number of poll periods that reach the timeout. */
  function PeriodsNeeded(opt: Options): nat
    requires opt.pollMs > 0 && opt.readyTimeoutMs > 0
  {
    (opt.readyTimeoutMs as int - 1) / opt.pollMs as int + 1
  }

  /** No wait is allowed, or polling takes time and the first multiple of the poll period at or above the
      timeout is an int. */
  predicate Bounded(opt: Options) {
    opt.readyTimeoutMs <= 0 || (opt.pollMs > 0 && Periods(PeriodsNeeded(opt), opt.pollMs) <= MAX_INT)
  }

  /** The periods needed are the fewest. */
  lemma FewestPeriods(opt: Options, k: nat)
    requires opt.pollMs > 0 && opt.readyTimeoutMs > 0
    ensures Periods(k, opt.pollMs) >= opt.readyTimeoutMs <==> k >= PeriodsNeeded(opt)
    ensures Periods(k, opt.pollMs) >= k
  {
    var p, t, n := opt.pollMs, opt.readyTimeoutMs, PeriodsNeeded(opt);
    Division(t - 1, p);
    assert Periods(n, p) == p + Periods(n - 1, p);
    GrowsPast(k, n - 1, p);
    GrowsPast(n, k, p);
    AtLeastOneEach(k, p);
  }

  lemma {:induction false} AtLeastOneEach(k: nat, p: nat)
    requires p > 0
    ensures Periods(k, p) >= k
  {
    if k > 0 {
      AtLeastOneEach(k - 1, p);
    }
  }

  lemma GrowsPast(a: nat, b: nat, period: nat)
    ensures a < b ==> Periods(a, period) + period <= Periods(b, period)
  {
    if a < b {
      PeriodsGrow(a, b, period);
    }
  }

  lemma OneMoreTurn(opt: Options, script: nat -> Poll, n: nat)
    ensures After(opt, script, n + 1) == PollStep(opt, After(opt, script, n), script(n))
    ensures After(opt, script, 0) == Waiting(0)
  {
    hide Ready, PollStep;
    assert FirstAnswers(script, n + 1)[..n] == FirstAnswers(script, n);
  }

  /** While the loop goes on, every turn has waited one poll period more. */
  lemma {:induction false} TurnsWait(opt: Options, script: nat -> Poll, n: nat)
    requires opt.pollMs > 0
    ensures var w := After(opt, script, n); w.Waiting? ==> w.waited == Periods(n, opt.pollMs)
    decreases n
  {
    hide Ready, After, IsReady;
    OneMoreTurn(opt, script, 0);
    if n > 0 {
      TurnsWait(opt, script, n - 1);
      OneMoreTurn(opt, script, n - 1);
    }
  }

  /** Without overflow, as long as the first multiple that reaches the timeout is an int. */
  lemma {:induction false} NoOverflow(opt: Options, script: nat -> Poll, n: nat)
    requires Bounded(opt)
    ensures !After(opt, script, n).Overflowed?
    decreases n
  {
    hide Ready, After, IsReady, PeriodsNeeded;
    OneMoreTurn(opt, script, 0);
    if n > 0 {
      NoOverflow(opt, script, n - 1);
      OneMoreTurn(opt, script, n - 1);
      var w := After(opt, script, n - 1);
      if w.Waiting? && w.waited < opt.readyTimeoutMs {
        NextIsInt(opt, script, n - 1);
      }
    }
  }

  /** One more period is still an int. */
  lemma NextIsInt(opt: Options, script: nat -> Poll, k: nat)
    requires Bounded(opt) && After(opt, script, k).Waiting? && After(opt, script, k).waited < opt.readyTimeoutMs
    ensures FitsInt(After(opt, script, k).waited as int + opt.pollMs as int)
  {
    hide After, PeriodsNeeded;
    if opt.readyTimeoutMs > 0 {
      TurnsWait(opt, script, k);
      NextPeriod(opt, k);
    } else {
      NegativeWait(opt, script, k);
    }
  }

  lemma NextPeriod(opt: Options, k: nat)
    requires opt.pollMs > 0 && opt.readyTimeoutMs > 0 && Periods(k, opt.pollMs) < opt.readyTimeoutMs
    requires Periods(PeriodsNeeded(opt), opt.pollMs) <= MAX_INT
    ensures Periods(k, opt.pollMs) + opt.pollMs <= MAX_INT
  {
    hide PeriodsNeeded;
    FewestPeriods(opt, k);
    GrowsPast(k, PeriodsNeeded(opt), opt.pollMs);
  }

  /** With no wait allowed the first turn is the last. */
  lemma {:induction false} NegativeWait(opt: Options, script: nat -> Poll, n: nat)
    requires opt.readyTimeoutMs <= 0
    ensures n > 0 ==> After(opt, script, n).Over?
    ensures n == 0 ==> After(opt, script, n) == Waiting(0)
    decreases n
  {
    hide Ready, After, IsReady;
    OneMoreTurn(opt, script, 0);
    if n > 0 {
      NegativeWait(opt, script, n - 1);
      OneMoreTurn(opt, script, n - 1);
    }
  }

  /** A board that is never ready lets the loop be left at the timeout only. */
  lemma {:induction false} LeftAtTimeout(opt: Options, script: nat -> Poll, n: nat)
    requires NeverReady(script) && !Bounded(opt)
    ensures !After(opt, script, n).Over?
    ensures opt.pollMs <= 0 && After(opt, script, n).Waiting? ==> After(opt, script, n).waited as int + n <= 0 || opt.pollMs == 0
    ensures opt.pollMs == 0 ==> After(opt, script, n) == Waiting(0)
    decreases n
  {
    hide Ready, After, IsReady, PeriodsNeeded;
    OneMoreTurn(opt, script, 0);
    if n > 0 {
      LeftAtTimeout(opt, script, n - 1);
      OneMoreTurn(opt, script, n - 1);
      if opt.pollMs > 0 {
        TurnsWait(opt, script, n - 1);
        FewestPeriods(opt, n - 1);
        GrowsPast(PeriodsNeeded(opt), n - 1, opt.pollMs);
      }
    }
  }

  /** The wait ends for every script of answers, and within the range of an int, if and only if no wait is
      allowed or the first multiple of the poll period that reaches the timeout is an int. */
  lemma WaitEndsIff(opt: Options)
    ensures (forall script :: WaitEnds(opt, script)) <==> Bounded(opt)
    ensures Bounded(opt) ==> forall script :: !WaitOverflows(opt, script)
  {
    hide After, PeriodsNeeded, Ready;
    if Bounded(opt) {
      forall script
        ensures WaitEnds(opt, script) && !WaitOverflows(opt, script)
      {
        EndsInTime(opt, script);
        forall n: nat
          ensures !After(opt, script, n).Overflowed?
        {
          NoOverflow(opt, script, n);
        }
      }
    } else {
      var silent: nat -> Poll := _ => Poll(false, 0);
      SilentBoard(opt, silent);
    }
  }

  lemma EndsInTime(opt: Options, script: nat -> Poll)
    requires Bounded(opt)
    ensures WaitEnds(opt, script)
  {
    hide After, IsReady, PeriodsNeeded;
    if opt.readyTimeoutMs <= 0 {
      NegativeWait(opt, script, 1);
    } else {
      var k := PeriodsNeeded(opt);
      TurnsWait(opt, script, k);
      FewestPeriods(opt, k);
      OneMoreTurn(opt, script, k);
      NoOverflow(opt, script, k + 1);
      assert After(opt, script, k + 1).Over?;
    }
  }

  /** Otherwise a board that never gets ready is polled for ever if the poll period is zero, and else drives
      the waiting time out of the range of an int. */
  lemma SilentBoard(opt: Options, script: nat -> Poll)
    requires NeverReady(script) && !Bounded(opt)
    ensures !WaitEnds(opt, script)
    ensures WaitOverflows(opt, script) <==> opt.pollMs != 0
  {
    hide After, IsReady, PeriodsNeeded, Bounded;
    forall n: nat
      ensures !After(opt, script, n).Over? && (opt.pollMs == 0 ==> After(opt, script, n) == Waiting(0))
    {
      LeftAtTimeout(opt, script, n);
    }
    if opt.pollMs != 0 {
      var n: nat := 0x8000_0001;
      LeftAtTimeout(opt, script, n);
      if opt.pollMs > 0 {
        TurnsWait(opt, script, n);
        AtLeastOneEach(n, opt.pollMs);
      }
      assert After(opt, script, n).Overflowed?;
    }
  }

  /** The loop is left at the first answer that is ready, and by a board that never is exactly when the
      timeout is reached, after as many poll periods as that takes. */
  lemma LeftExactly(opt: Options, script: nat -> Poll, k: nat)
    requires Bounded(opt)
    ensures IsReady(script(k)) ==> After(opt, script, k + 1).Over?
    ensures NeverReady(script) && opt.readyTimeoutMs > 0 ==> (After(opt, script, k).Over? <==> k > PeriodsNeeded(opt))
    ensures After(opt, script, k).Over? && opt.readyTimeoutMs > 0 && k <= PeriodsNeeded(opt) ==>
              exists j: nat :: j < k && IsReady(script(j))
  {
    hide After, IsReady, PeriodsNeeded;
    NoOverflow(opt, script, k);
    NoOverflow(opt, script, k + 1);
    OneMoreTurn(opt, script, k);
    if opt.readyTimeoutMs > 0 {
      StillWaiting(opt, script, k);
      if k > PeriodsNeeded(opt) {
        OverBy(opt, script, k);
      }
    }
  }

  /** Before the timeout only a ready board ends the wait. */
  lemma {:induction false} StillWaiting(opt: Options, script: nat -> Poll, k: nat)
    requires Bounded(opt) && opt.readyTimeoutMs > 0
    ensures k <= PeriodsNeeded(opt) && After(opt, script, k).Over? ==> exists j: nat :: j < k && IsReady(script(j))
    decreases k
  {
    hide After, IsReady, PeriodsNeeded;
    OneMoreTurn(opt, script, 0);
    if 0 < k <= PeriodsNeeded(opt) {
      StillWaiting(opt, script, k - 1);
      OneMoreTurn(opt, script, k - 1);
      TurnsWait(opt, script, k - 1);
      FewestPeriods(opt, k - 1);
      if IsReady(script(k - 1)) {
        assert k - 1 < k;
      }
    }
  }

  lemma OverBy(opt: Options, script: nat -> Poll, k: nat)
    requires Bounded(opt) && opt.readyTimeoutMs > 0 && k > PeriodsNeeded(opt)
    ensures After(opt, script, k).Over?
  {
    hide After, IsReady, PeriodsNeeded;
    NoOverflow(opt, script, k - 1);
    NoOverflow(opt, script, k);
    TurnsWait(opt, script, k - 1);
    FewestPeriods(opt, k - 1);
    OneMoreTurn(opt, script, k - 1);
  }

  /** With a poll period of zero and a wait allowed, the loop is left if and only if the board gets ready. */
  lemma PolledForEver(opt: Options, script: nat -> Poll)
    requires opt.pollMs == 0 && opt.readyTimeoutMs > 0
    ensures WaitEnds(opt, script) <==> exists k: nat :: IsReady(script(k))
    ensures !WaitOverflows(opt, script)
  {
    hide After, IsReady;
    forall n: nat
      ensures !After(opt, script, n).Overflowed?
    {
      ZeroNeverOverflows(opt, script, n);
    }
    if k: nat :| IsReady(script(k)) {
      OneMoreTurn(opt, script, k);
      assert After(opt, script, k + 1).Over?;
    } else {
      SilentBoard(opt, script);
    }
  }

  lemma {:induction false} ZeroNeverOverflows(opt: Options, script: nat -> Poll, n: nat)
    requires opt.pollMs == 0
    ensures !After(opt, script, n).Overflowed?
    decreases n
  {
    hide After, IsReady;
    OneMoreTurn(opt, script, 0);
    if n > 0 {
      ZeroNeverOverflows(opt, script, n - 1);
      OneMoreTurn(opt, script, n - 1);
    }
  }

  /** How often the status is polled at most. */
  function MaxPolls(opt: Options): nat
    requires Bounded(opt)
  {
    if opt.readyTimeoutMs <= 0 then 1 else PeriodsNeeded(opt) + 1
  }

  function AnswersOf(polls: seq<Access>): seq<Poll> {
    seq(|polls|, i requires 0 <= i < |polls| => if polls[i].ReadOut? then Poll(polls[i].ok, polls[i].value) else Poll(false, 0))
  }

  lemma OneMoreAnswer(opt: Options, polls: seq<Access>, a: Access)
    requires a.ReadOut?
    ensures AfterPolls(opt, AnswersOf(polls + [a])) == PollStep(opt, AfterPolls(opt, AnswersOf(polls)), Poll(a.ok, a.value))
  {
    hide PollStep;
    assert AnswersOf(polls + [a])[..|polls|] == AnswersOf(polls);
  }

  /** `n` pauses of `ms`, one after each of the accesses from number `base` on. */
  function Between(base: nat, n: nat, ms: int): seq<Nap> { seq(n, i requires 0 <= i < n => Nap(ms, base + i + 1)) }

  /** Waiting for Board Ready: the polls end where the loop's turns say, and not before. */
  method AwaitReady(bench: Bench, b: nat, opt: Options) returns (statusRead: bool, status: Word, ghost polls: seq<Access>)
    requires Bounded(opt)
    modifies bench
    ensures bench.trace == old(bench.trace) + polls
    ensures OnlyReads(polls, b) && (forall i :: 0 <= i < |polls| ==> IsRead(polls[i], b, ACQUISITION_STATUS))
    ensures 1 <= |polls| <= MaxPolls(opt)
    ensures AfterPolls(opt, AnswersOf(polls)).Over? && AfterPolls(opt, AnswersOf(polls[..|polls| - 1])).Waiting?
    ensures statusRead <==> SomeStatusRead(polls)
    ensures bench.naps == old(bench.naps) + Between(|old(bench.trace)|, |polls| - 1, opt.pollMs)
    ensures |bench.naps| == |old(bench.naps)| + |polls| - 1
    ensures forall k :: |old(bench.naps)| <= k < |bench.naps| ==>
              bench.naps[k] == Nap(opt.pollMs, |old(bench.trace)| + k - |old(bench.naps)| + 1)
  {
    hide Bit, WithBit7, Ready, SomeStatusRead, AfterPolls, AnswersOf, MaxPolls, KeepsLock, PeriodsNeeded;
    assert !SomeStatusRead([]) && AfterPolls(opt, AnswersOf([])) == Waiting(0) by {
      NoReads(opt);
    }
    polls, statusRead, status := [], false, 0;
    ghost var earlier := polls;
    var waited: Int32 := 0;
    while true
      invariant if opt.readyTimeoutMs > 0 then waited == Periods(|polls|, opt.pollMs) else polls == [] && waited == 0
      invariant polls == [] || Periods(|polls| - 1, opt.pollMs) < opt.readyTimeoutMs
      invariant AfterPolls(opt, AnswersOf(polls)) == Waiting(waited)
      invariant bench.trace == old(bench.trace) + polls
      invariant bench.naps == old(bench.naps) + Between(|old(bench.trace)|, |polls|, opt.pollMs)
      invariant forall i :: 0 <= i < |polls| ==> IsRead(polls[i], b, ACQUISITION_STATUS)
      invariant statusRead <==> SomeStatusRead(polls)
      decreases MAX_INT - waited
    {
      ghost var at := bench.now;
      var ok, value := bench.Read(b, ACQUISITION_STATUS);
      ghost var access := ReadOut(b, ACQUISITION_STATUS, ok, value, at);
      OneMoreRead(polls, access);
      OneMoreAnswer(opt, polls, access);
      earlier := polls;
      polls := polls + [access];
      if ok {
        statusRead := true;
        status := value;
        if Ready(status) {
          break;
        }
      }
      if waited >= opt.readyTimeoutMs {
        break;
      }
      NextPeriod(opt, |earlier|);
      bench.Sleep(opt.pollMs);
      waited := waited + opt.pollMs;  // an int, by the bound on the options
    }
    assert polls[..|polls| - 1] == earlier;
    PollBound(opt, |earlier|);
  }

  lemma NoReads(opt: Options)
    ensures !SomeStatusRead([])
    ensures AfterPolls(opt, AnswersOf([])) == Waiting(0)
  {
  }

  lemma OneMoreRead(polls: seq<Access>, a: Access)
    ensures SomeStatusRead(polls + [a]) <==> SomeStatusRead(polls) || (a.ReadOut? && a.ok)
  {
    var more := polls + [a];
    assert more[|polls|] == a;
    if SomeStatusRead(polls) {
      var i :| 0 <= i < |polls| && polls[i].ReadOut? && polls[i].ok;
      assert more[i] == polls[i];
    }
  }

  lemma PollBound(opt: Options, k: nat)
    requires Bounded(opt) && (k == 0 || (opt.readyTimeoutMs > 0 && Periods(k - 1, opt.pollMs) < opt.readyTimeoutMs))
    ensures k + 1 <= MaxPolls(opt)
  {
    hide PeriodsNeeded;
    if k > 0 {
      FewestPeriods(opt, k - 1);
    }
  }

  lemma NothingRead(b: nat, master: bool)
    ensures OnlyReads([], b) && !Locked([], b, master)
  {
  }

  lemma NotLocked(polls: seq<Access>, b: nat, master: bool)
    requires !SomeStatusRead(polls)
    ensures !Locked(polls, b, master)
  {
    hide Bit;
  }

  /** The last two reads of a board decide on its lock. */
  lemma LastTwoReads(polls: seq<Access>, b: nat, master: bool, rearm: Access, last: Access)
    requires polls != [] && OnlyReads(polls, b) && IsRead(rearm, b, VME_STATUS) && IsRead(last, b, ACQUISITION_STATUS)
    ensures OnlyReads(polls + [rearm, last], b)
    ensures Locked(polls + [rearm, last], b, master) <==>
              last.ok && Ready(last.value) && Bit(last.value, BIT_7) && (master || Bit(last.value, BIT_5))
  {
    hide Bit;
  }

  /** One board: ready, then locked for a while. Its part of the report is exactly what its reads say. */
  method CheckBoard(bench: Bench, c: ChainBoard, s0: LockState, opt: Options) returns (s: LockState, ghost polls: seq<Access>)
    requires Bounded(opt) && !s0.statusRead && !s0.ready && !s0.stable && !s0.external
    modifies bench
    ensures bench.trace == old(bench.trace) + polls && OnlyReads(polls, c.id)
    ensures |polls| <= MaxPolls(opt) + 2 && (!c.canRead ==> polls == [])
    ensures s.id == s0.id && s.master == s0.master && s.synced == s0.synced
    ensures s.statusRead && s.ready && s.stable && (s.master || s.external) <==> Locked(polls, c.id, s.master)
    ensures Locked(polls, c.id, s.master) ==> Steady(bench, c.id, polls)
    ensures old(bench.naps) <= bench.naps
    ensures Locked(polls, c.id, s.master) ==> Watched(bench.trace, bench.naps, polls, opt.stableMs)
  {
    hide Bit, WithBit7, SomeStatusRead, MaxPolls, Between, Locked, OnlyReads, Ready, Watched, WatchedAt, KeepsLock, Bounded, AfterPolls, AnswersOf;
    s, polls := s0, [];
    if !c.canRead {
      NothingRead(c.id, s.master);
      return;
    }
    var statusRead, status;
    statusRead, status, polls := AwaitReady(bench, c.id, opt);
    if !statusRead {
      NotLocked(polls, c.id, s.master);
      return;
    }
    s := s.(statusRead := true, ready := Ready(status));
    ghost var t := bench.now;
    var done, ignored := bench.Read(c.id, VME_STATUS);
    bench.Sleep(opt.stableMs);
    ghost var t2 := bench.now;
    var ok, value := bench.Read(c.id, ACQUISITION_STATUS);
    TwoInstants(bench.script, c.id, t);
    ghost var rearm, last := ReadOut(c.id, VME_STATUS, done, ignored, t), ReadOut(c.id, ACQUISITION_STATUS, ok, value, t2);
    LastTwoReads(polls, c.id, s.master, rearm, last);
    polls := polls + [rearm, last];
    WatchedAtEnd(bench.trace, bench.naps, polls, opt.stableMs, rearm, last);
    if ok {
      s := s.(ready := Ready(value), stable := Bit(value, BIT_7), external := Bit(value, BIT_5));
    } else {
      s := s.(statusRead := false);
    }
  }

  /** Between the last two accesses, which follow each other in the trace, the procedure pauses for `ms`. */
  ghost predicate Watched(trace: seq<Access>, naps: seq<Nap>, polls: seq<Access>, ms: int) {
    |polls| >= 2 && exists p: nat :: WatchedAt(trace, naps, polls, ms, p)
  }

  predicate WatchedAt(trace: seq<Access>, naps: seq<Nap>, polls: seq<Access>, ms: int, p: nat)
    requires |polls| >= 2
  {
    0 < p < |trace| && trace[p - 1] == polls[|polls| - 2] && trace[p] == polls[|polls| - 1] && Nap(ms, p) in naps
  }

  lemma TwoInstants(script: nat -> Moment, b: nat, t: nat)
    ensures KeepsLock(script, b, t, t + 2) <==> b !in script(t + 1).unlocks && b !in script(t + 2).unlocks
  {
  }

  lemma WatchedAtEnd(trace: seq<Access>, naps: seq<Nap>, polls: seq<Access>, ms: int, rearm: Access, last: Access)
    requires |trace| >= 2 && trace[|trace| - 2] == rearm && trace[|trace| - 1] == last
    requires |polls| >= 2 && polls[|polls| - 2] == rearm && polls[|polls| - 1] == last
    requires naps != [] && naps[|naps| - 1] == Nap(ms, |trace| - 1)
    ensures Watched(trace, naps, polls, ms)
  {
    assert WatchedAt(trace, naps, polls, ms, |trace| - 1);
  }

  lemma StillWatched(trace: seq<Access>, naps: seq<Nap>, trace': seq<Access>, naps': seq<Nap>, polls: seq<Access>, ms: int)
    requires Watched(trace, naps, polls, ms) && trace <= trace' && naps <= naps'
    ensures Watched(trace', naps', polls, ms)
  {
    var p: nat :| WatchedAt(trace, naps, polls, ms, p);
    assert trace'[p - 1] == trace[p - 1] && trace'[p] == trace[p];
    var i :| 0 <= i < |naps| && naps[i] == Nap(ms, p);
    assert naps'[i] == Nap(ms, p);
    assert WatchedAt(trace', naps', polls, ms, p);
  }

  /** The last two accesses enclose a time without an unlock. */
  ghost predicate Steady(bench: Bench, b: nat, polls: seq<Access>) {
    |polls| >= 2 && KeepsLock(bench.script, b, polls[|polls| - 2].at, polls[|polls| - 1].at)
  }

  /** Positions of the boards that can be written to, all of them, in chain order. */
  function Writable(chain: seq<ChainBoard>): (w: seq<nat>)
    ensures forall k :: 0 <= k < |w| ==> w[k] < |chain| && chain[w[k]].canWrite
    ensures Increasing(w, 0)
    ensures forall i :: 0 <= i < |chain| && chain[i].canWrite ==> i in w
  {
    if chain == [] then []
    else Writable(chain[..|chain| - 1]) + (if chain[|chain| - 1].canWrite then [|chain| - 1] else [])
  }

  /** The accesses of the re-align: one write per board that can be written to, in chain order. */
  predicate AlignedInOrder(chain: seq<ChainBoard>, writes: seq<Access>, states: seq<LockState>) {
    && |writes| == |Writable(chain)|
    && (forall k :: 0 <= k < |writes| ==>
          writes[k].Wrote? && writes[k].board == chain[Writable(chain)[k]].id && writes[k].address == SOFTWARE_CLOCK_SYNC)
    && |states| == |chain|
    && (forall k :: 0 <= k < |writes| ==> states[Writable(chain)[k]].synced == writes[k].ok)
    && (forall i :: 0 <= i < |chain| && !chain[i].canWrite ==> !states[i].synced)
  }

  predicate Fresh(c: ChainBoard, s: LockState) {
    s.id == c.id && s.master == c.master && !s.statusRead && !s.ready && !s.stable && !s.external
  }

  lemma NoneAligned()
    ensures AlignedInOrder([], [], [])
  {
  }

  lemma OneMoreAligned(chain: seq<ChainBoard>, c: ChainBoard, writes: seq<Access>, states: seq<LockState>, s: LockState, more: seq<Access>)
    requires AlignedInOrder(chain, writes, states)
    requires if c.canWrite then |more| == 1 && more[0].Wrote? && more[0].board == c.id && more[0].address == SOFTWARE_CLOCK_SYNC
                                && more[0].ok == s.synced
             else more == [] && !s.synced
    ensures AlignedInOrder(chain + [c], writes + more, states + [s])
    ensures |writes + more| == |Writable(chain + [c])|
  {
    hide Increasing;
    assert (chain + [c])[..|chain|] == chain;
  }

  /** After each board, written to or not, a pause; the next board is touched only behind it. */
  function SettleNaps(chain: seq<ChainBoard>, base: nat, ms: int): seq<Nap> {
    seq(|chain|, i requires 0 <= i < |chain| => Nap(ms, base + |Writable(chain[..i + 1])|))
  }

  /** With every board written to, the pause behind a board comes right after its write. */
  lemma SettlesBehindEach(chain: seq<ChainBoard>, base: nat, ms: int, i: nat)
    requires i < |chain| && forall j :: 0 <= j < |chain| ==> chain[j].canWrite
    ensures |SettleNaps(chain, base, ms)| == |chain| && SettleNaps(chain, base, ms)[i] == Nap(ms, base + i + 1)
  {
    hide Writable;
    AllWritable(chain[..i + 1]);
  }

  lemma {:induction false} AllWritable(chain: seq<ChainBoard>)
    requires forall j :: 0 <= j < |chain| ==> chain[j].canWrite
    ensures |Writable(chain)| == |chain|
    decreases |chain|
  {
    if chain != [] {
      AllWritable(chain[..|chain| - 1]);
    }
  }

  lemma OneMoreSettles(chain: seq<ChainBoard>, c: ChainBoard, writes: seq<Access>, base: nat, ms: int)
    requires |writes| == |Writable(chain + [c])|
    ensures SettleNaps(chain + [c], base, ms) == SettleNaps(chain, base, ms) + [Nap(ms, base + |writes|)]
  {
    hide Writable;
    assert (chain + [c])[..|chain| + 1] == chain + [c];
    forall i | 0 <= i < |chain|
      ensures SettleNaps(chain + [c], base, ms)[i] == SettleNaps(chain, base, ms)[i]
    {
      assert (chain + [c])[..i + 1] == chain[..i + 1];
    }
  }

  /** The re-align itself: master first and down the chain. */
  method Realign(bench: Bench, chain: seq<ChainBoard>, opt: Options) returns (states: seq<LockState>, ghost writes: seq<Access>)
    modifies bench
    ensures bench.trace == old(bench.trace) + writes && AlignedInOrder(chain, writes, states) && |states| == |chain|
    ensures forall i :: 0 <= i < |chain| ==> Fresh(chain[i], states[i])
    ensures bench.naps == old(bench.naps) + SettleNaps(chain, |old(bench.trace)|, opt.settleMs)
  {
    hide AlignedInOrder, Writable;
    assert bench.naps + SettleNaps([], |bench.trace|, opt.settleMs) == bench.naps;
    states, writes := [], [];
    assert chain[..0] == [];
    assert AlignedInOrder([], [], []) by {
      NoneAligned();
    }
    for i := 0 to |chain|
      invariant bench.trace == old(bench.trace) + writes && AlignedInOrder(chain[..i], writes, states)
      invariant |states| == i
      invariant bench.naps == old(bench.naps) + SettleNaps(chain[..i], |old(bench.trace)|, opt.settleMs)
      invariant forall k :: 0 <= k < i ==> Fresh(chain[k], states[k])
    {
      var c := chain[i];
      var s := LockState(c.id, c.master, false, false, false, false, false);
      assert chain[..i + 1] == chain[..i] + [c];
      ghost var more := [];
      if c.canWrite {
        ghost var t := bench.now;
        var ok := bench.Write(c.id, SOFTWARE_CLOCK_SYNC, 1);
        s := s.(synced := ok);
        more := [Wrote(c.id, SOFTWARE_CLOCK_SYNC, ok, t)];
      }
      OneMoreAligned(chain[..i], c, writes, states, s, more);
      OneMoreSettles(chain[..i], c, writes + more, |old(bench.trace)|, opt.settleMs);
      writes := writes + more;
      states := states + [s];
      bench.Sleep(opt.settleMs);
    }
    assert chain[..|chain|] == chain;
  }

  /** The accesses of the checks, board after board. */
  function Joined(parts: seq<seq<Access>>): seq<Access> {
    if parts == [] then [] else Joined(parts[..|parts| - 1]) + parts[|parts| - 1]
  }

  lemma NothingJoined()
    ensures Joined([]) == []
  {
  }

  lemma JoinedNext(parts: seq<seq<Access>>, part: seq<Access>)
    ensures Joined(parts + [part]) == Joined(parts) + part
  {
    assert (parts + [part])[..|parts|] == parts;
  }

  /** The checks follow each other: that of board `i` comes right behind those of the boards before it. */
  lemma {:induction false} JoinedInOrder(parts: seq<seq<Access>>, i: nat)
    requires i < |parts|
    ensures Joined(parts[..i]) + parts[i] <= Joined(parts)
    decreases |parts|
  {
    var n := |parts| - 1;
    if i < n {
      JoinedInOrder(parts[..n], i);
      assert parts[..n][..i] == parts[..i];
    }
  }

  /** The report of a board is what its write and its reads say. */
  ghost predicate Reported(bench: Bench, c: ChainBoard, s: LockState, check: seq<Access>, opt: Options)
    requires Bounded(opt)
  {
    && s.id == c.id && s.master == c.master
    && OnlyReads(check, c.id) && |check| <= MaxPolls(opt) + 2
    && (s.Ok() <==> s.synced && Locked(check, c.id, c.master))
    && (s.Ok() ==> Steady(bench, c.id, check))
  }

  lemma SameAligned(chain: seq<ChainBoard>, writes: seq<Access>, a: seq<LockState>, b: seq<LockState>)
    requires AlignedInOrder(chain, writes, a) && |a| == |b| && forall i :: 0 <= i < |a| ==> a[i].synced == b[i].synced
    ensures AlignedInOrder(chain, writes, b)
  {
  }

  lemma MakesReport(bench: Bench, c: ChainBoard, s: LockState, check: seq<Access>, opt: Options)
    requires Bounded(opt) && s.id == c.id && s.master == c.master && OnlyReads(check, c.id) && |check| <= MaxPolls(opt) + 2
    requires s.statusRead && s.ready && s.stable && (s.master || s.external) <==> Locked(check, c.id, s.master)
    requires Locked(check, c.id, s.master) ==> Steady(bench, c.id, check)
    ensures Reported(bench, c, s, check, opt)
    ensures s.Ok() ==> Locked(check, c.id, s.master)
    ensures s.Ok() ==> |check| >= 2 && forall t: nat :: check[|check| - 2].at < t <= check[|check| - 1].at ==> c.id !in bench.script(t).unlocks
  {
    hide Locked, OnlyReads, MaxPolls, Bounded;
  }

  /** The whole procedure, against any environment: first every board is written to, once and in chain
      order, then every board is checked with a bounded number of reads; and a board is reported good
      exactly when its write was accepted and its last status, read right after the latch was re-armed,
      shows it ready, on the right clock and without an unlock. In that case no unlock happened between
      the two reads, even if the first of them failed. */
  method SynchroniseClockChain(bench: Bench, chain: seq<ChainBoard>, opt: Options)
    returns (states: seq<LockState>, ghost writes: seq<Access>, ghost checks: seq<seq<Access>>)
    requires Bounded(opt)
    modifies bench
    ensures |states| == |checks| == |chain|
    ensures bench.trace == old(bench.trace) + writes + Joined(checks)
    ensures AlignedInOrder(chain, writes, states)
    ensures forall i :: 0 <= i < |chain| ==> Reported(bench, chain[i], states[i], checks[i], opt)
    ensures old(bench.naps) + SettleNaps(chain, |old(bench.trace)|, opt.settleMs) <= bench.naps
    ensures forall i :: 0 <= i < |chain| && states[i].Ok() ==> Watched(bench.trace, bench.naps, checks[i], opt.stableMs)
  {
    hide Bit, Locked, KeepsLock, OnlyReads, MaxPolls, Writable, Watched, Steady, Reported, SettleNaps, AlignedInOrder, Bounded, Joined;
    assert Joined([]) == [] by {
      NothingJoined();
    }
    states, writes := Realign(bench, chain, opt);
    ghost var realigned := states;
    checks := [];
    for i := 0 to |chain|
      invariant |states| == |chain| && |checks| == i && states[i..] == realigned[i..]
      invariant bench.trace == old(bench.trace) + writes + Joined(checks)
      invariant forall k :: 0 <= k < |chain| ==> states[k].synced == realigned[k].synced
      invariant forall k :: 0 <= k < i ==> Reported(bench, chain[k], states[k], checks[k], opt)
      invariant old(bench.naps) + SettleNaps(chain, |old(bench.trace)|, opt.settleMs) <= bench.naps
      invariant forall k :: 0 <= k < i && states[k].Ok() ==> Watched(bench.trace, bench.naps, checks[k], opt.stableMs)
    {
      ghost var trace, naps, was := bench.trace, bench.naps, checks;
      assert states[i] == states[i..][0] == realigned[i];
      ghost var polls;
      var s;
      s, polls := CheckBoard(bench, chain[i], states[i], opt);
      MakesReport(bench, chain[i], s, polls, opt);
      states := states[i := s];
      JoinedNext(checks, polls);
      checks := checks + [polls];
      forall k | 0 <= k < i && states[k].Ok()
        ensures Watched(bench.trace, bench.naps, checks[k], opt.stableMs)
      {
        StillWatched(trace, naps, bench.trace, bench.naps, was[k], opt.stableMs);
      }
    }
    SameAligned(chain, writes, realigned, states);
  }
}
