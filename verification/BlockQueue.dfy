/** The bounded queue between the board readers and the file writer: its critical sections, and the
    monitor they form with any number of producer and consumer threads. */
module BlockQueues {
  import opened Words

  /** One readout buffer and the board it came from. */
  datatype Block = Block(board: nat, data: seq<Byte>)

  datatype Queue = Queue(capacity: nat, items: seq<Block>, closed: bool, dropped: nat, droppedBytes: nat)

  /** `Waits` is not an answer: the thread goes (back) to sleep on its condition. */
  datatype PushAnswer = Enqueued | Refused | Dropped | Waits
  datatype PopAnswer = Popped(block: Block) | Drained | TimedOut | Asleep

  predicate Full(q: Queue) { |q.items| >= q.capacity }

  function Bytes(bs: seq<Block>): nat {
    if bs == [] then 0 else |bs[0].data| + Bytes(bs[1..])
  }

  lemma {:induction false} BytesJoin(a: seq<Block>, b: seq<Block>)
    ensures Bytes(a + b) == Bytes(a) + Bytes(b)
    decreases |a|
  {
    if a == [] {
      assert a + b == b;
    } else {
      assert (a + b)[1..] == a[1..] + b;
      BytesJoin(a[1..], b);
    }
  }

  // ----- what each critical section answers, and the queue after it -----

  /** The lock is held: on entry (`woken` false) or after a wait. A full queue lets an entering thread
      wait, and a woken one too unless its time is up. */
  function PushAnswerOf(q: Queue, woken: bool, timedOut: bool): PushAnswer {
    if q.closed then Refused
    else if !Full(q) then Enqueued
    else if woken && timedOut then Dropped
    else Waits
  }

  function AfterPush(q: Queue, b: Block, a: PushAnswer): Queue {
    match a
    case Enqueued => q.(items := q.items + [b])
    case Dropped => q.(dropped := q.dropped + 1, droppedBytes := q.droppedBytes + |b.data|)
    case _ => q
  }

  function PopAnswerOf(q: Queue, woken: bool, timedOut: bool): PopAnswer {
    if q.items != [] then Popped(q.items[0])
    else if q.closed then Drained
    else if woken && timedOut then TimedOut
    else Asleep
  }

  function AfterPop(q: Queue, a: PopAnswer): Queue {
    if a.Popped? && q.items != [] then q.(items := q.items[1..]) else q
  }

  class BlockQueue {
    const capacity: nat
    var q: seq<Block>
    var closed: bool
    var dropped: nat
    var droppedBytes: nat

    ghost function Contents(): Queue
      reads this
    {
      Queue(capacity, q, closed, dropped, droppedBytes)
    }

    constructor (capacity: nat)
      ensures Contents() == Queue(if capacity == 0 then 1 else capacity, [], false, 0, 0)
    {
      this.capacity := if capacity > 0 then capacity else 1;
      q, closed, dropped, droppedBytes := [], false, 0, 0;
    }

    /** push() up to its wait, and from the end of the wait on. */
    method Push(block: Block, woken: bool, timedOut: bool) returns (answer: PushAnswer)
      modifies this
      ensures answer == PushAnswerOf(old(Contents()), woken, timedOut)
      ensures answer == Refused <==> old(closed)
      ensures answer == Enqueued <==> !old(closed) && |old(q)| < capacity
      ensures answer == Dropped <==> !old(closed) && |old(q)| >= capacity && woken && timedOut
      ensures q == (if answer == Enqueued then old(q) + [block] else old(q)) && closed == old(closed)
      ensures dropped == old(dropped) + (if answer == Dropped then 1 else 0)
      ensures droppedBytes == old(droppedBytes) + if answer == Dropped then |block.data| else 0
      ensures Contents() == AfterPush(old(Contents()), block, answer)
    {
      if closed {
        return Refused;
      }
      if |q| >= capacity {
        if !woken || !timedOut {
          return Waits;
        }
        dropped := dropped + 1;
        droppedBytes := droppedBytes + |block.data|;
        return Dropped;
      }
      q := q + [block];
      return Enqueued;
    }

    /** pop() and popFor(); the former never times out. */
    method Pop(woken: bool, timedOut: bool) returns (answer: PopAnswer)
      modifies this
      ensures answer == PopAnswerOf(old(Contents()), woken, timedOut)
      ensures old(q) != [] ==> answer == Popped(old(q)[0]) && q == old(q)[1..]
      ensures old(q) == [] ==> q == [] && (answer == Drained <==> old(closed)) && (answer == TimedOut <==> !old(closed) && woken && timedOut)
      ensures closed == old(closed) && dropped == old(dropped) && droppedBytes == old(droppedBytes)
      ensures Contents() == AfterPop(old(Contents()), answer)
    {
      if q == [] {
        if closed {
          return Drained;
        }
        return if woken && timedOut then TimedOut else Asleep;
      }
      answer := Popped(q[0]);
      q := q[1..];
    }

    method Close()
      modifies this
      ensures Contents() == old(Contents()).(closed := true)
    {
      closed := true;
    }
  }

  // ----- condition variables -----

  /** The threads at one condition variable. A sleeping one has been neither notified nor timed out; an
      awake one has, and is on its way to the lock. The owing have closed the queue and not notified yet. */
  datatype Condition = Condition(sleeping: set<nat>, awake: set<nat>, owing: set<nat>)

  function NotifyOne(c: Condition, t: nat): Condition {
    if t !in c.sleeping then c else c.(sleeping := c.sleeping - {t}, awake := c.awake + {t})
  }

  function NotifyAll(c: Condition, closer: nat): Condition {
    Condition({}, c.awake + c.sleeping, c.owing - {closer})
  }

  function Leave(c: Condition, t: nat): Condition { c.(awake := c.awake - {t}) }

  function Sleep(c: Condition, t: nat): Condition { c.(sleeping := c.sleeping + {t}) }

  function Owe(c: Condition, t: nat): Condition { c.(owing := c.owing + {t}) }

  predicate At(c: Condition, t: nat) { t in c.sleeping || t in c.awake || t in c.owing }

  /** notify_one picks a sleeping thread, if there is one. */
  predicate Picks(c: Condition, t: nat) { c.sleeping != {} ==> t in c.sleeping }

  /** No wake-up is lost: while a thread sleeps, at least as many others are on their way as there is
      work for; once the queue is closed, somebody still owes the call to all. */
  predicate Covered(c: Condition, work: int, closed: bool) {
    && c.sleeping !! c.awake
    && c.owing !! c.sleeping + c.awake
    && (c.sleeping != {} ==> if closed then c.owing != {} else |c.awake| >= work)
    && (c.owing != {} ==> closed)
  }

  lemma NotifyCovers(c: Condition, work: int, closed: bool, t: nat)
    requires Covered(c, work, closed) && Picks(c, t)
    ensures Covered(NotifyOne(c, t), work + 1, closed)
    ensures forall u :: At(NotifyOne(c, t), u) <==> At(c, u)
  {
  }

  lemma WakeCovers(c: Condition, work: int, closed: bool, t: nat)
    requires Covered(c, work, closed) && t in c.sleeping
    ensures Covered(NotifyOne(c, t), work, closed)
  {
  }

  /** A thread that leaves the condition takes a piece of work with it, or there was none. */
  lemma LeaveCovers(c: Condition, work: int, closed: bool, t: nat)
    requires Covered(c, work, closed)
    ensures Covered(Leave(c, t), work - 1, closed)
    ensures work <= 0 ==> Covered(Leave(c, t), work, closed)
    ensures forall u :: At(Leave(c, t), u) ==> At(c, u)
    ensures closed ==> Covered(Leave(c, t), work, closed)
  {
    if t in c.awake {
      assert |c.awake - {t}| == |c.awake| - 1;
    } else {
      assert c.awake - {t} == c.awake;
    }
  }

  lemma SleepCovers(c: Condition, t: nat)
    requires Covered(c, 0, false) && t !in c.awake && t !in c.owing
    ensures Covered(Sleep(c, t), 0, false)
  {
  }

  lemma NotifyAllCovers(c: Condition, work: int, closed: bool, t: nat)
    requires Covered(c, work, closed)
    ensures Covered(NotifyAll(c, t), work, closed)
  {
  }

  lemma OwingCovers(c: Condition, work: int, closed: bool, t: nat)
    requires Covered(c, work, closed) && !At(c, t)
    ensures Covered(Owe(c, t), work, true)
  {
  }

  // ----- the monitor -----

  /** The queue, its history, what each producer has in hand, and the two conditions. */
  datatype Monitor = Monitor(
    queue: Queue,
    accepted: seq<Block>, popped: seq<Block>, dropped: seq<Block>,
    hands: map<nat, Block>,
    notFull: Condition, notEmpty: Condition)

  /** `wakes` is the thread that notify_one picks. Waking up by itself is a timeout or a spurious wake-up. */
  datatype Action =
    | PushEnters(p: nat, block: Block, wakes: nat)
    | PushResumes(p: nat, timedOut: bool, wakes: nat)
    | ProducerWakes(p: nat)
    | PopEnters(c: nat, wakes: nat)
    | PopResumes(c: nat, timedOut: bool, wakes: nat)
    | ConsumerWakes(c: nat)
    | CloseSets(t: nat)
    | CloseWakesConsumers(t: nat)
    | CloseWakesProducers(t: nat)

  predicate Busy(m: Monitor, t: nat) { At(m.notFull, t) || At(m.notEmpty, t) }

  predicate Enabled(m: Monitor, a: Action) {
    match a
    case PushEnters(p, b, w) => !Busy(m, p) && Picks(m.notEmpty, w)
    case PushResumes(p, timedOut, w) => p in m.notFull.awake && p in m.hands && Picks(m.notEmpty, w)
    case ProducerWakes(p) => p in m.notFull.sleeping
    case PopEnters(c, w) => !Busy(m, c) && Picks(m.notFull, w)
    case PopResumes(c, timedOut, w) => c in m.notEmpty.awake && Picks(m.notFull, w)
    case ConsumerWakes(c) => c in m.notEmpty.sleeping
    case CloseSets(t) => !Busy(m, t)
    case CloseWakesConsumers(t) => t in m.notEmpty.owing
    case CloseWakesProducers(t) => t in m.notFull.owing && t !in m.notEmpty.owing
  }

  /** A push that holds the lock. */
  function Pushing(m: Monitor, p: nat, b: Block, woken: bool, timedOut: bool, w: nat): Monitor {
    var a := PushAnswerOf(m.queue, woken, timedOut);
    var m' := m.(queue := AfterPush(m.queue, b, a), notFull := Leave(m.notFull, p));
    match a
    case Enqueued => m'.(accepted := m.accepted + [b], notEmpty := NotifyOne(m.notEmpty, w))
    case Dropped => m'.(dropped := m.dropped + [b])
    case Waits => m'.(notFull := Sleep(m'.notFull, p), hands := m.hands[p := b])
    case Refused => m'
  }

  /** A pop that holds the lock. */
  function Popping(m: Monitor, c: nat, woken: bool, timedOut: bool, w: nat): Monitor {
    var a := PopAnswerOf(m.queue, woken, timedOut);
    var m' := m.(queue := AfterPop(m.queue, a), notEmpty := Leave(m.notEmpty, c));
    match a
    case Popped(b) => m'.(popped := m.popped + [b], notFull := NotifyOne(m.notFull, w))
    case Asleep => m'.(notEmpty := Sleep(m'.notEmpty, c))
    case _ => m'
  }

  function Next(m: Monitor, a: Action): Monitor
    requires Enabled(m, a)
  {
    match a
    case PushEnters(p, b, w) => Pushing(m, p, b, false, false, w)
    case PushResumes(p, timedOut, w) => Pushing(m, p, m.hands[p], true, timedOut, w)
    case ProducerWakes(p) => m.(notFull := NotifyOne(m.notFull, p))
    case PopEnters(c, w) => Popping(m, c, false, false, w)
    case PopResumes(c, timedOut, w) => Popping(m, c, true, timedOut, w)
    case ConsumerWakes(c) => m.(notEmpty := NotifyOne(m.notEmpty, c))
    case CloseSets(t) =>
      m.(queue := m.queue.(closed := true),
         notEmpty := Owe(m.notEmpty, t), notFull := Owe(m.notFull, t))
    case CloseWakesConsumers(t) => m.(notEmpty := NotifyAll(m.notEmpty, t))
    case CloseWakesProducers(t) => m.(notFull := NotifyAll(m.notFull, t))
  }

  const NOBODY := Condition({}, {}, {})

  predicate Started(m: Monitor, capacity: nat) {
    m == Monitor(Queue(if capacity == 0 then 1 else capacity, [], false, 0, 0), [], [], [], map[], NOBODY, NOBODY)
  }

  /** A run of the monitor: any threads, any interleaving. */
  predicate Runs(capacity: nat, ms: seq<Monitor>, acts: seq<Action>) {
    && |ms| == |acts| + 1 && Started(ms[0], capacity)
    && forall i :: 0 <= i < |acts| ==> Enabled(ms[i], acts[i]) && ms[i + 1] == Next(ms[i], acts[i])
  }

  /** Every accepted block is popped or still queued, in order; every drop is counted. */
  predicate Conserved(m: Monitor) {
    && m.accepted == m.popped + m.queue.items
    && |m.queue.items| <= m.queue.capacity && m.queue.capacity > 0
    && m.queue.dropped == |m.dropped| && m.queue.droppedBytes == Bytes(m.dropped)
  }

  /** Work for a consumer is a queued block, for a producer a free slot. */
  predicate NoLostWakeup(m: Monitor) {
    && Covered(m.notEmpty, |m.queue.items|, m.queue.closed)
    && Covered(m.notFull, m.queue.capacity - |m.queue.items|, m.queue.closed)
  }

  predicate Inv(m: Monitor) { Conserved(m) && NoLostWakeup(m) }

  lemma PushConserves(m: Monitor, p: nat, b: Block, woken: bool, timedOut: bool, w: nat)
    requires Conserved(m)
    ensures Conserved(Pushing(m, p, b, woken, timedOut, w))
  {
    hide Leave, NotifyOne, Sleep, Bytes;
    OneBlock(m.dropped, b);
    assert (m.popped + m.queue.items) + [b] == m.popped + (m.queue.items + [b]);
  }

  lemma OneBlock(bs: seq<Block>, b: Block)
    ensures Bytes(bs + [b]) == Bytes(bs) + |b.data|
  {
    BytesJoin(bs, [b]);
    assert [b][1..] == [];
  }

  lemma PushWakes(m: Monitor, p: nat, b: Block, woken: bool, timedOut: bool, w: nat)
    requires Inv(m) && p !in m.notFull.owing && Picks(m.notEmpty, w)
    ensures NoLostWakeup(Pushing(m, p, b, woken, timedOut, w))
  {
    hide Bytes, Covered, Leave, NotifyOne, Sleep, Picks;
    var q := m.queue;
    var free := q.capacity - |q.items|;
    LeaveCovers(m.notFull, free, q.closed, p);
    NotifyCovers(m.notEmpty, |q.items|, q.closed, w);
    if !q.closed && Full(q) {
      LeftAlone(m.notFull, p);
      SleepCovers(Leave(m.notFull, p), p);
    }
  }

  lemma LeftAlone(c: Condition, t: nat)
    requires t !in c.owing
    ensures t !in Leave(c, t).awake && t !in Leave(c, t).owing
  {
  }

  lemma PopConserves(m: Monitor, c: nat, woken: bool, timedOut: bool, w: nat)
    requires Conserved(m)
    ensures Conserved(Popping(m, c, woken, timedOut, w))
  {
    hide Leave, NotifyOne, Sleep, Bytes;
    if m.queue.items != [] {
      assert m.popped + m.queue.items == (m.popped + [m.queue.items[0]]) + m.queue.items[1..];
    }
  }

  lemma PopWakes(m: Monitor, c: nat, woken: bool, timedOut: bool, w: nat)
    requires Inv(m) && c !in m.notEmpty.owing && Picks(m.notFull, w)
    ensures NoLostWakeup(Popping(m, c, woken, timedOut, w))
  {
    hide Bytes, Covered, Leave, NotifyOne, Sleep, Picks;
    var q := m.queue;
    LeaveCovers(m.notEmpty, |q.items|, q.closed, c);
    NotifyCovers(m.notFull, q.capacity - |q.items|, q.closed, w);
    if !q.closed && q.items == [] {
      LeftAlone(m.notEmpty, c);
      SleepCovers(Leave(m.notEmpty, c), c);
    }
  }

  lemma OtherStepsKeepInv(m: Monitor, a: Action)
    requires Inv(m) && Enabled(m, a)
    requires !a.PushEnters? && !a.PushResumes? && !a.PopEnters? && !a.PopResumes?
    ensures Inv(Next(m, a))
  {
    hide Bytes, Covered, NotifyAll, NotifyOne, Owe;
    var items, free, closed := |m.queue.items|, m.queue.capacity - |m.queue.items|, m.queue.closed;
    match a
    case ProducerWakes(p) => WakeCovers(m.notFull, free, closed, p);
    case ConsumerWakes(c) => WakeCovers(m.notEmpty, items, closed, c);
    case CloseSets(t) =>
      OwingCovers(m.notFull, free, closed, t);
      OwingCovers(m.notEmpty, items, closed, t);
    case CloseWakesConsumers(t) => NotifyAllCovers(m.notEmpty, items, closed, t);
    case CloseWakesProducers(t) => NotifyAllCovers(m.notFull, free, closed, t);
  }

  lemma NextKeepsInv(m: Monitor, a: Action)
    requires Inv(m) && Enabled(m, a)
    ensures Inv(Next(m, a))
  {
    hide Conserved, Pushing, Popping;
    match a
    case PushEnters(p, b, w) =>
      PushConserves(m, p, b, false, false, w);
      PushWakes(m, p, b, false, false, w);
    case PushResumes(p, timedOut, w) =>
      PushConserves(m, p, m.hands[p], true, timedOut, w);
      PushWakes(m, p, m.hands[p], true, timedOut, w);
    case PopEnters(c, w) =>
      PopConserves(m, c, false, false, w);
      PopWakes(m, c, false, false, w);
    case PopResumes(c, timedOut, w) =>
      PopConserves(m, c, true, timedOut, w);
      PopWakes(m, c, true, timedOut, w);
    case _ => OtherStepsKeepInv(m, a);
  }

  // ----- what each step does, on the state itself -----

  predicate FullAndOpen(q: Queue) { !q.closed && |q.items| >= q.capacity }

  /** A block is dropped exactly when a producer's time is up and the queue is open and full; then it is the
      block in that producer's hand, and it is counted once with its bytes. */
  lemma DropsExactly(m: Monitor, a: Action)
    requires Enabled(m, a)
    ensures var m' := Next(m, a);
            && (m'.queue.dropped > m.queue.dropped <==> a.PushResumes? && a.timedOut && FullAndOpen(m.queue))
            && (if m'.queue.dropped > m.queue.dropped
                then m'.queue.dropped == m.queue.dropped + 1 && m'.dropped == m.dropped + [m.hands[a.p]]
                     && m'.queue.droppedBytes == m.queue.droppedBytes + |m.hands[a.p].data|
                else m'.queue.dropped == m.queue.dropped && m'.dropped == m.dropped && m'.queue.droppedBytes == m.queue.droppedBytes)
  {
    hide NotifyOne, NotifyAll, Leave, Sleep, Owe;
  }

  /** The block that a push is about, if the action is one. */
  function Offered(m: Monitor, a: Action): seq<Block>
    requires Enabled(m, a)
  {
    match a
    case PushEnters(p, block, _) => [block]
    case PushResumes(p, _, _) => [m.hands[p]]
    case _ => []
  }

  /** A block is accepted exactly when it is offered to an open queue with room, at the end; nothing else is
      ever accepted. */
  lemma AcceptsExactly(m: Monitor, a: Action)
    requires Enabled(m, a)
    ensures var m' := Next(m, a);
            m'.accepted == if m.queue.closed || |m.queue.items| >= m.queue.capacity then m.accepted else m.accepted + Offered(m, a)
  {
    hide NotifyOne, NotifyAll, Leave, Sleep, Owe;
    assert m.accepted + [] == m.accepted;
  }

  /** A producer goes to sleep, its block in hand, exactly when the queue is open and full and its time is
      not up; otherwise a producer that had the lock is gone from the queue. */
  lemma SleepsExactly(m: Monitor, a: Action)
    requires Inv(m) && Enabled(m, a) && (a.PushEnters? || a.PushResumes?)
    ensures var m' := Next(m, a);
            && (a.p in m'.notFull.sleeping <==> FullAndOpen(m.queue) && !(a.PushResumes? && a.timedOut))
            && (a.p in m'.notFull.sleeping ==> a.p in m'.hands && [m'.hands[a.p]] == Offered(m, a))
            && a.p !in m'.notFull.awake
  {
    hide NotifyOne, Conserved;
  }

  /** What a waiting producer has in hand changes only when that producer comes with a new block. */
  lemma HandsKept(m: Monitor, a: Action, p: nat)
    requires Enabled(m, a) && p in m.hands
    ensures p in Next(m, a).hands && (Next(m, a).hands[p] != m.hands[p] ==> a.PushEnters? && a.p == p && Next(m, a).hands[p] == a.block)
  {
    hide NotifyOne, NotifyAll, Leave, Sleep, Owe;
  }

  /** A block is popped exactly when a consumer has the lock and the queue is not empty: the oldest. A
      consumer sleeps exactly when the queue is empty and open and its time is not up. */
  lemma PopsExactly(m: Monitor, a: Action)
    requires Inv(m) && Enabled(m, a)
    ensures var m' := Next(m, a);
            && m'.popped == (if (a.PopEnters? || a.PopResumes?) && m.queue.items != [] then m.popped + [m.queue.items[0]] else m.popped)
            && (a.PopEnters? || a.PopResumes? ==>
                  (a.c in m'.notEmpty.sleeping <==> m.queue.items == [] && !m.queue.closed && !(a.PopResumes? && a.timedOut)))
  {
    hide NotifyOne, NotifyAll, Owe, Conserved, Bytes, AfterPush, PushAnswerOf;
  }

  predicate Waiting(c: Condition, t: nat) { t in c.sleeping || t in c.awake }

  /** Nobody vanishes from a wait but by getting the lock, and the close wakes everybody. */
  lemma NobodyVanishes(m: Monitor, a: Action, t: nat)
    requires Enabled(m, a)
    ensures Waiting(m.notFull, t) && !(a.PushResumes? && a.p == t) ==> Waiting(Next(m, a).notFull, t)
    ensures Waiting(m.notEmpty, t) && !(a.PopResumes? && a.c == t) ==> Waiting(Next(m, a).notEmpty, t)
    ensures a.CloseWakesProducers? && Waiting(m.notFull, t) ==> t in Next(m, a).notFull.awake
    ensures a.CloseWakesConsumers? && Waiting(m.notEmpty, t) ==> t in Next(m, a).notEmpty.awake
  {
  }

  /** The same over a run: a full-queue timeout is the only way to lose a block. */
  lemma DropsOverRun(capacity: nat, ms: seq<Monitor>, acts: seq<Action>, i: nat)
    requires Runs(capacity, ms, acts) && i < |acts|
    ensures ms[i + 1].queue.dropped > ms[i].queue.dropped <==>
            acts[i].PushResumes? && acts[i].timedOut && !ms[i].queue.closed && |ms[i].queue.items| >= ms[i].queue.capacity
    ensures acts[i].PushResumes? && !acts[i].timedOut && !ms[i].queue.closed && |ms[i].queue.items| >= ms[i].queue.capacity ==>
              && acts[i].p in ms[i + 1].notFull.sleeping && acts[i].p in ms[i].hands && acts[i].p in ms[i + 1].hands
              && ms[i + 1].hands[acts[i].p] == ms[i].hands[acts[i].p]
  {
    hide Next, Inv, Runs;
    StepOfRun(capacity, ms, acts, i);
    AlwaysInv(capacity, ms, acts, i);
    DropsExactly(ms[i], acts[i]);
    if acts[i].PushResumes? {
      SleepsExactly(ms[i], acts[i]);
    }
  }

  lemma StepOfRun(capacity: nat, ms: seq<Monitor>, acts: seq<Action>, i: nat)
    requires Runs(capacity, ms, acts) && i < |acts|
    ensures |ms| == |acts| + 1 && Enabled(ms[i], acts[i]) && ms[i + 1] == Next(ms[i], acts[i])
  {
    hide Enabled, Next;
  }

  /** In every state of every run, with any number of producers and consumers. */
  lemma {:induction false} AlwaysInv(capacity: nat, ms: seq<Monitor>, acts: seq<Action>, i: nat)
    requires Runs(capacity, ms, acts) && i < |ms|
    ensures Inv(ms[i])
    decreases i
  {
    hide Enabled, Next;
    if i > 0 {
      AlwaysInv(capacity, ms, acts, i - 1);
      NextKeepsInv(ms[i - 1], acts[i - 1]);
    }
  }

  /** With one consumer, as the file has: it never sleeps over a block, nor over a close that is done. */
  lemma LoneConsumerNeverOversleeps(m: Monitor, c: nat)
    requires Inv(m) && m.notEmpty.sleeping + m.notEmpty.awake == {c} && c in m.notEmpty.sleeping
    ensures m.queue.items == [] || m.queue.closed
    ensures m.queue.closed ==> m.notEmpty.owing != {}
  {
    assert m.notEmpty.awake == {};
  }

  /** An empty answer that is not a timeout means closed and drained for good: whatever follows,
      nothing is accepted any more and all that was accepted has been popped. */
  lemma {:induction false} DrainedIsFinal(capacity: nat, ms: seq<Monitor>, acts: seq<Action>, i: nat, j: nat)
    requires Runs(capacity, ms, acts) && i <= j < |ms|
    requires PopAnswerOf(ms[i].queue, true, false).Drained?
    ensures ms[j].accepted == ms[i].accepted == ms[j].popped && ms[j].queue.closed
    decreases j
  {
    hide Enabled, Next;
    if i == j {
      AlwaysInv(capacity, ms, acts, i);
      hide Runs;
      assert ms[i].popped + [] == ms[i].popped;
    } else {
      DrainedIsFinal(capacity, ms, acts, i, j - 1);
      AlwaysInv(capacity, ms, acts, j - 1);
      NothingAfterClose(ms[j - 1], acts[j - 1]);
    }
  }

  lemma NothingAfterClose(m: Monitor, a: Action)
    requires Inv(m) && Enabled(m, a) && m.queue.closed && m.accepted == m.popped
    ensures var m' := Next(m, a); m'.accepted == m.accepted == m'.popped && m'.queue.closed
  {
    hide NoLostWakeup, Bytes, Leave, NotifyOne, NotifyAll, Sleep, Picks, Busy;
    assert m.queue.items == [] by {
      assert |m.popped + m.queue.items| == |m.popped|;
    }
  }
}
