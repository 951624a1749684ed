/** The decode tap of one board: blocks from its own best-effort queue, through the decoder, into the
    spectra and the hit tap. */
module DecodeStages {
  import opened Words
  import opened Parsing
  import opened DataFrames
  import opened Clocks
  import opened Stamping
  import opened Decoder
  import opened DecodingLaws
  import opened EventRanges
  import opened BlockQueues
  import opened HistogramStores
  import opened HitTaps
  import Recording

  /** The hits of a stretch of events: those with a known time. */
  function HitsOf(evs: seq<DecodedEvent>): seq<Hit> {
    if evs == [] then []
    else HitsOf(evs[..|evs| - 1]) + (if evs[|evs| - 1].timePs > 0 then [FromEvent(evs[|evs| - 1])] else [])
  }

  lemma NextHit(evs: seq<DecodedEvent>, e: DecodedEvent)
    ensures HitsOf(evs + [e]) == if e.timePs > 0 then HitsOf(evs) + [FromEvent(e)] else HitsOf(evs)
  {
    assert (evs + [e])[..|evs|] == evs;
  }

  /** One hit for every event with a time, in their order, and none for the others. */
  ghost predicate HitFor(evs: seq<DecodedEvent>, at: seq<nat>, hits: seq<Hit>) {
    && |at| == |hits|
    && (forall j :: 0 <= j < |at| ==> at[j] < |evs| && evs[at[j]].timePs > 0 && hits[j] == FromEvent(evs[at[j]]))
    && (forall j, k :: 0 <= j < k < |at| ==> at[j] < at[k])
    && (forall i :: 0 <= i < |evs| && evs[i].timePs > 0 ==> i in at)
  }

  lemma OneMoreHit(evs: seq<DecodedEvent>, at: seq<nat>, hits: seq<Hit>, e: DecodedEvent)
    requires HitFor(evs, at, hits)
    ensures e.timePs > 0 ==> HitFor(evs + [e], at + [|evs|], hits + [FromEvent(e)])
    ensures e.timePs <= 0 ==> HitFor(evs + [e], at, hits)
  {
    hide FromEvent;
    var more := at + [|evs|];
    assert forall i :: i in at ==> i in more;
    assert more[|at|] == |evs|;
  }

  lemma {:induction false} HitsAreTimedEvents(evs: seq<DecodedEvent>) returns (at: seq<nat>)
    ensures HitFor(evs, at, HitsOf(evs))
    decreases |evs|
  {
    hide FromEvent;
    if evs == [] {
      at := [];
    } else {
      hide HitFor;
      var n := |evs| - 1;
      at := HitsAreTimedEvents(evs[..n]);
      OneMoreHit(evs[..n], at, HitsOf(evs[..n]), evs[n]);
      assert evs[..n] + [evs[n]] == evs;
      if evs[n].timePs > 0 {
        at := at + [n];
      }
    }
  }

  /** A decoder that knows one board and has seen nothing. */
  function Registered(id: nat): DecState { INITIAL.(clocks := map[id := FRESH]) }

  /** The events of the last of some blocks decoded in turn. */
  function LastEvents(boards: map<nat, BoardCfg>, s: DecState, blocks: seq<seq<Word>>): seq<DecodedEvent>
    requires blocks != []
  {
    var before, all := AfterBuffers(boards, s, blocks[..|blocks| - 1]).events, AfterBuffers(boards, s, blocks).events;
    if |before| <= |all| then all[|before|..] else []
  }

  /** The timed events of the tapped ones among the blocks, as hits. */
  function TappedHits(boards: map<nat, BoardCfg>, s: DecState, blocks: seq<seq<Word>>, taps: seq<bool>): seq<Hit>
    requires |taps| == |blocks|
  {
    if blocks == [] then []
    else
      var n := |blocks| - 1;
      TappedHits(boards, s, blocks[..n], taps[..n]) + (if taps[n] then HitsOf(LastEvents(boards, s, blocks)) else [])
  }

  lemma NextTapped(boards: map<nat, BoardCfg>, s: DecState, blocks: seq<seq<Word>>, taps: seq<bool>, block: seq<Word>)
    requires |taps| == |blocks|
    ensures TappedHits(boards, s, blocks + [block], taps + [false]) == TappedHits(boards, s, blocks, taps)
    ensures AfterBuffers(boards, s, blocks).events <= AfterBuffers(boards, s, blocks + [block]).events ==>
              var events := AfterBuffers(boards, s, blocks + [block]).events[|AfterBuffers(boards, s, blocks).events|..];
              LastEvents(boards, s, blocks + [block]) == events
  {
    hide AfterBuffers, HitsOf;
    assert (blocks + [block])[..|blocks|] == blocks && (taps + [false])[..|taps|] == taps;
  }

  lemma TapLast(boards: map<nat, BoardCfg>, s: DecState, blocks: seq<seq<Word>>, taps: seq<bool>)
    requires |taps| == |blocks| > 0 && !taps[|taps| - 1]
    ensures TappedHits(boards, s, blocks, taps[|taps| - 1 := true]) ==
            TappedHits(boards, s, blocks, taps) + HitsOf(LastEvents(boards, s, blocks))
  {
    hide AfterBuffers, HitsOf, LastEvents;
    var n := |taps| - 1;
    assert taps[n := true][..n] == taps[..n];
  }

  class DecodeStage {
    const decoder: AggregateDecoder
    const store: HistogramStore
    const hits: HitTap
    const queue: BlockQueue
    const id: nat
    var events: nat                   // eventsDecoded
    ghost var blocks: seq<seq<Word>>  // the blocks decoded so far
    ghost var taps: seq<bool>         // which of them were tapped: tap on at their begin and at their end
    ghost const offeredBefore: seq<Hit>
    ghost var pending: nat            // events of the block at hand that are not counted yet

    /** The store's history is what the decoder has emitted, and that is what decoding the blocks in turn
        gives; the tap has been offered exactly the timed events of the tapped blocks, in order; at block
        boundaries the count agrees. */
    ghost predicate Valid()
      reads this, decoder, store, hits, queue
    {
      && decoder.Valid() && store.Valid() && hits.Valid()
      && decoder.State() == AfterBuffers(decoder.boards, Registered(id), blocks)
      && store.history == decoder.emitted
      && events + pending == |decoder.emitted|
      && |taps| == |blocks|
      && hits.offered == offeredBefore + TappedHits(decoder.boards, Registered(id), blocks, taps)
    }

    /** The batch of the block at hand, if the tap was on when it was begun. */
    ghost predicate Batch(tapping: bool, batch: seq<Hit>)
      requires blocks != []
      reads this, decoder
    {
      batch == if tapping then HitsOf(LastEvents(decoder.boards, Registered(id), blocks)) else []
    }

    constructor (id: nat, pha: bool, modelName: string, psPerTick: nat, axis: int -> int, hits: HitTap, queueCapacity: nat)
      requires hits.Valid()
      ensures taps == [] && offeredBefore == hits.offered
      ensures Valid() && this.hits == hits && this.id == id && events == 0 && pending == 0 && blocks == []
      ensures fresh(decoder) && fresh(store) && fresh(queue)
      ensures decoder.boards == map[id := BoardCfg(FrameKind(pha, ModelOf(modelName)), psPerTick)]
    {
      hide ModelOf, AfterBuffers, TappedHits, HitsOf, LastEvents, Agrees, OfKey, FrameValid, Subsequence;
      var d := new AggregateDecoder();
      d.RegisterBoard(id, pha, modelName, psPerTick);
      decoder := d;
      store := new HistogramStore(axis);
      queue := new BlockQueue(queueCapacity);
      this.hits, this.id := hits, id;
      events, blocks, taps, pending := 0, [], [], 0;
      offeredBefore := hits.offered;
      assert hits.offered + [] == hits.offered;
      NothingYet(map[id := BoardCfg(FrameKind(pha, ModelOf(modelName)), psPerTick)], Registered(id));
    }

    /** Best effort: a full queue drops the block at once, and counts it. */
    method Submit(block: Block)
      modifies queue
      ensures queue.Contents() == if old(queue.closed) then old(queue.Contents())
              else AfterPush(old(queue.Contents()), block, if Full(old(queue.Contents())) then Dropped else Enqueued)
      ensures old(queue.closed) || |old(queue.q)| >= queue.capacity ==> queue.q == old(queue.q)
      ensures !old(queue.closed) && |old(queue.q)| < queue.capacity ==> queue.q == old(queue.q) + [block]
      ensures queue.dropped == old(queue.dropped) + if !old(queue.closed) && |old(queue.q)| >= queue.capacity then 1 else 0
    {
      var answer := queue.Push(block, false, false);
      if answer.Waits? {
        answer := queue.Push(block, true, true);
      }
    }

    /** One block: every event into the spectra, and if the tap was on when the block was begun, its hits
        into the batch. */
    method DecodeBlock(words: seq<Word>) returns (tapping: bool, batch: seq<Hit>, n: nat)
      requires Valid() && pending == 0 && |words| < 0x8000_0000
      modifies this`blocks, this`taps, this`pending, decoder, store
      ensures Valid() && blocks == old(blocks) + [words] && pending == n
      ensures taps == old(taps) + [false] && Batch(tapping, batch)
      ensures decoder.boards == old(decoder.boards)
      ensures tapping == hits.enabled && n == |decoder.emitted| - |old(decoder.emitted)|
      ensures batch == if tapping then HitsOf(decoder.emitted[|old(decoder.emitted)|..]) else []
    {
      hide ParseBuffer, Advance, AfterBuffers, Agrees, OfKey, HitsOf, FrameValid;
      tapping := hits.enabled;
      ghost var was := decoder.emitted;
      ghost var state := decoder.State();
      n := decoder.Decode(words);
      DeliveredInRange(decoder.boards, state, words);
      OneMoreBuffer(decoder.boards, Registered(id), blocks, words);
      var all := decoder.emitted;
      batch := [];
      var i := |all| - n;
      assert HitsOf(all[|was|..i]) == [] by {
        NoHits(all[|was|..i]);
      }
      while i < |all|
        invariant |was| <= i <= |all| && store.Valid() && store.history == all[..i]
        invariant batch == if tapping then HitsOf(all[|was|..i]) else []
        invariant decoder.emitted == all && decoder.State() == Advance(decoder.boards, state, ParseBuffer(decoder.boards, words))
        invariant decoder.Valid() && decoder.boards == old(decoder.boards) && blocks == old(blocks) && taps == old(taps)
      {
        var e := all[i];
        store.Fill(e);
        assert all[..i + 1] == all[..i] + [e] && all[|was|..i + 1] == all[|was|..i] + [e];
        NextHit(all[|was|..i], e);
        if tapping && e.timePs > 0 {
          batch := batch + [FromEvent(e)];
        }
        i := i + 1;
      }
      assert all[..i] == all && all[|was|..i] == all[|was|..];
      NextTapped(decoder.boards, Registered(id), blocks, taps, words);
      blocks := blocks + [words];
      taps := taps + [false];
      pending := n;
    }

    /** The end of a block: the batch goes to the tap in one piece, then the events are counted. Other
        threads may have used the tap in between. */
    method HandOver(tapping: bool, batch: seq<Hit>, n: nat)
      requires Valid() && pending == n && blocks != [] && taps != [] && !taps[|taps| - 1] && Batch(tapping, batch)
      modifies this`events, this`pending, this`taps, hits
      ensures Valid() && events == old(events) + n && pending == 0
      ensures taps == old(taps)[|old(taps)| - 1 := tapping && old(hits.enabled)]
      ensures hits.offered == if tapping && old(hits.enabled) then old(hits.offered) + batch else old(hits.offered)
      ensures hits.taken == old(hits.taken) && hits.enabled == old(hits.enabled)
    {
      hide AfterBuffers, Agrees, OfKey, FrameValid, HitsOf, LastEvents, TappedHits, Subsequence;
      TapLast(decoder.boards, Registered(id), blocks, taps);
      ghost var on, was := hits.enabled, TappedHits(decoder.boards, Registered(id), blocks, taps);
      assert (offeredBefore + was) + batch == offeredBefore + (was + batch);
      assert taps[|taps| - 1 := false] == taps;
      if tapping {
        hits.Append(batch);
      }
      taps := taps[|taps| - 1 := tapping && on];
      events := events + n;
      pending := 0;
    }

    /** One turn of the loop, with nobody else at the tap. */
    method Process(block: Block)
      requires Valid() && pending == 0 && |block.data| < 0x2_0000_0000
      modifies this`blocks, this`taps, this`pending, this`events, decoder, store, hits
      ensures Valid() && pending == 0 && decoder.boards == old(decoder.boards)
      ensures blocks == old(blocks) + [Recording.WordsOf(block.data)] && taps == old(taps) + [old(hits.enabled)]
    {
      hide AfterBuffers, Agrees, OfKey, FrameValid, HitsOf, Recording.WordsOf;
      var tapping, batch, n := DecodeBlock(Recording.WordsOf(block.data));
      HandOver(tapping, batch, n);
      assert (old(taps) + [false])[|old(taps)| := tapping] == old(taps) + [tapping];
    }

    /** The end: the queue is closed and the decode thread works off what is left, so that every block the
        queue ever took has been decoded. */
    method Stop()
      requires Valid() && pending == 0
      requires forall i :: 0 <= i < |queue.q| ==> |queue.q[i].data| < 0x2_0000_0000
      modifies this`blocks, this`taps, this`pending, this`events, decoder, store, hits, queue
      ensures Valid() && pending == 0 && queue.closed && queue.q == []
      ensures decoder.boards == old(decoder.boards)
      ensures blocks == old(blocks) + Recording.Buffers(old(queue.q))
    {
      hide AfterBuffers, Agrees, OfKey, FrameValid, HitsOf, Recording.WordsOf, Recording.Buffers, Subsequence;
      queue.Close();
      assert Recording.Buffers([]) == [] by {
        NoBuffers();
      }
      ghost var items := queue.q;
      assert blocks + Recording.Buffers([]) == blocks;
      while true
        invariant Valid() && pending == 0 && queue.closed && |queue.q| <= |items| && queue.q == items[|items| - |queue.q|..]
        invariant blocks == old(blocks) + Recording.Buffers(items[..|items| - |queue.q|])
        invariant decoder.boards == old(decoder.boards)
        decreases |queue.q|
      {
        ghost var done := |items| - |queue.q|;
        var answer := queue.Pop(false, false);
        if !answer.Popped? {
          break;
        }
        NextBuffer(items, done);
        Process(answer.block);
      }
      assert items[..|items|] == items;
    }
  }

  lemma NothingYet(boards: map<nat, BoardCfg>, s: DecState)
    ensures AfterBuffers(boards, s, []) == s && TappedHits(boards, s, [], []) == []
  {
  }

  lemma NoBuffers()
    ensures Recording.Buffers([]) == []
  {
  }

  lemma NextBuffer(items: seq<Block>, n: nat)
    requires n < |items|
    ensures Recording.Buffers(items[..n + 1]) == Recording.Buffers(items[..n]) + [Recording.WordsOf(items[n].data)]
  {
    hide Recording.WordsOf;
    assert items[..n + 1] == items[..n] + [items[n]];
  }

  lemma NoHits(evs: seq<DecodedEvent>)
    requires evs == []
    ensures HitsOf(evs) == []
  {
  }

  /** At block boundaries the channels' event counts add up to eventsDecoded. */
  lemma CountsAddUp(stage: DecodeStage)
    requires stage.Valid() && stage.pending == 0
    ensures EventsBelow(stage.store.history, ALL_KEYS) == stage.events
  {
    hide AfterBuffers, Agrees, OfKey, EventsBelow, FrameValid;
    ChannelsAddUp(stage.store.history);
  }

  /** Over a whole run, whatever the consumer and the operator did at the tap: every timed event of every
      tapped block is taken, held, dropped or discarded, and what is taken and held is in decode order. */
  lemma EveryHitAccounted(stage: DecodeStage)
    requires stage.Valid() && stage.offeredBefore == []
    ensures var offered := TappedHits(stage.decoder.boards, Registered(stage.id), stage.blocks, stage.taps);
            && Subsequence(stage.hits.taken + stage.hits.hits, offered)
            && |offered| == |stage.hits.taken| + |stage.hits.hits| + stage.hits.dropped + stage.hits.discarded
  {
    hide AfterBuffers, Agrees, OfKey, FrameValid, TappedHits, Subsequence;
    var offered := TappedHits(stage.decoder.boards, Registered(stage.id), stage.blocks, stage.taps);
    assert [] + offered == offered;
  }
}
