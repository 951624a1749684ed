/** Rates from cumulative counters: what the ticks report adds up to what was counted. */
module StatsCollectors {
  import opened HistogramStores

  datatype Option<T> = None | Some(value: T)

  datatype ChannelSample = ChannelSample(key: Key, counts: Counts)

  datatype BoardSample = BoardSample(regId: nat, bytesWritten: nat, boardFail: nat, channels: seq<ChannelSample>)

  datatype Metric = Events | PileUp | Lost | Satu

  function Of(c: Counts, m: Metric): nat {
    match m
    case Events => c.events
    case PileUp => c.pileup
    case Lost => c.lost
    case Satu => c.satu
  }

  datatype ChannelRate = ChannelRate(key: Key, events: real, pileup: real, lost: real, satu: real)

  function RateOf(r: ChannelRate, m: Metric): real {
    match m
    case Events => r.events
    case PileUp => r.pileup
    case Lost => r.lost
    case Satu => r.satu
  }

  datatype BoardRate = BoardRate(regId: nat, writeRate: real, boardFail: nat, channels: seq<ChannelRate>)

  // ----- looking up; the last entry with a given id or key wins -----

  function CountsAt(cs: seq<ChannelSample>, key: Key): Option<Counts> {
    if cs == [] then None
    else if cs[|cs| - 1].key == key then Some(cs[|cs| - 1].counts)
    else CountsAt(cs[..|cs| - 1], key)
  }

  function CountsIn(bs: seq<BoardSample>, regId: nat, key: Key): Option<Counts> {
    if bs == [] then None
    else
      var last := bs[|bs| - 1];
      if last.regId == regId && CountsAt(last.channels, key).Some? then CountsAt(last.channels, key)
      else CountsIn(bs[..|bs| - 1], regId, key)
  }

  /** A channel not seen counts zero. */
  function Counted(bs: seq<BoardSample>, regId: nat, key: Key, m: Metric): nat {
    match CountsIn(bs, regId, key)
    case Some(c) => Of(c, m)
    case None => 0
  }

  function BytesIn(bs: seq<BoardSample>, regId: nat): Option<nat> {
    if bs == [] then None
    else if bs[|bs| - 1].regId == regId then Some(bs[|bs| - 1].bytesWritten)
    else BytesIn(bs[..|bs| - 1], regId)
  }

  function RateAt(rs: seq<ChannelRate>, key: Key): Option<ChannelRate> {
    if rs == [] then None
    else if rs[|rs| - 1].key == key then Some(rs[|rs| - 1])
    else RateAt(rs[..|rs| - 1], key)
  }

  function RateIn(rs: seq<BoardRate>, regId: nat, key: Key): Option<ChannelRate> {
    if rs == [] then None
    else
      var last := rs[|rs| - 1];
      if last.regId == regId && RateAt(last.channels, key).Some? then RateAt(last.channels, key)
      else RateIn(rs[..|rs| - 1], regId, key)
  }

  function Reported(rs: seq<BoardRate>, regId: nat, key: Key, m: Metric): real {
    match RateIn(rs, regId, key)
    case Some(r) => RateOf(r, m)
    case None => 0.0
  }

  function WriteRateIn(rs: seq<BoardRate>, regId: nat): real {
    if rs == [] then 0.0
    else if rs[|rs| - 1].regId == regId then rs[|rs| - 1].writeRate
    else WriteRateIn(rs[..|rs| - 1], regId)
  }

  // ----- one tick -----

  /** A counter that went back reports nothing. */
  function PerSecond(now: nat, before: nat, dt: real): real
    requires dt > 0.0
  {
    if now >= before then (now - before) as real / dt else 0.0
  }

  function ChannelRateOf(prev: seq<BoardSample>, regId: nat, c: ChannelSample, dt: real): ChannelRate
    requires dt > 0.0
  {
    ChannelRate(c.key,
      PerSecond(c.counts.events, Counted(prev, regId, c.key, Events), dt),
      PerSecond(c.counts.pileup, Counted(prev, regId, c.key, PileUp), dt),
      PerSecond(c.counts.lost, Counted(prev, regId, c.key, Lost), dt),
      PerSecond(c.counts.satu, Counted(prev, regId, c.key, Satu), dt))
  }

  /** A board seen for the first time has written nothing yet, as far as its rate goes. */
  function BytesBefore(prev: seq<BoardSample>, b: BoardSample): nat {
    match BytesIn(prev, b.regId)
    case Some(n) => n
    case None => b.bytesWritten
  }

  function BoardRateOf(prev: seq<BoardSample>, b: BoardSample, dt: real): BoardRate
    requires dt > 0.0
  {
    BoardRate(b.regId, PerSecond(b.bytesWritten, BytesBefore(prev, b), dt), b.boardFail,
              seq(|b.channels|, i requires 0 <= i < |b.channels| => ChannelRateOf(prev, b.regId, b.channels[i], dt)))
  }

  function RatesOf(prev: seq<BoardSample>, cur: seq<BoardSample>, dt: real): seq<BoardRate>
    requires dt > 0.0
  {
    seq(|cur|, i requires 0 <= i < |cur| => BoardRateOf(prev, cur[i], dt))
  }

  /** The elapsed time in s, never zero or less. */
  function Elapsed(prevTime: real, now: real): (dt: real)
    ensures dt > 0.0
  {
    if now - prevTime <= 0.0 then 0.000001 else now - prevTime
  }

  lemma RateTimesDt(now: nat, before: nat, dt: real)
    requires dt > 0.0
    ensures PerSecond(now, before, dt) * dt == (if now >= before then now - before else 0) as real
  {
  }

  class StatsCollector {
    var prev: seq<BoardSample>
    var prevTime: real
    var latest: seq<BoardRate>

    /** The first sample; a sampler that throws leaves it empty. */
    constructor (sample: Option<seq<BoardSample>>, now: real)
      ensures prev == (if sample.Some? then sample.value else []) && prevTime == now && latest == []
    {
      prev := if sample.Some? then sample.value else [];
      prevTime, latest := now, [];
    }

    method IndexBytes() returns (bytes: map<nat, nat>)
      ensures forall r :: if r in bytes then BytesIn(prev, r) == Some(bytes[r]) else BytesIn(prev, r) == None
    {
      bytes := map[];
      for i := 0 to |prev|
        invariant forall r :: if r in bytes then BytesIn(prev[..i], r) == Some(bytes[r]) else BytesIn(prev[..i], r) == None
      {
        assert prev[..i + 1][..i] == prev[..i];
        bytes := bytes[prev[i].regId := prev[i].bytesWritten];
      }
      assert prev[..|prev|] == prev;
    }

    method IndexChannels(cs: seq<ChannelSample>, known: map<Key, Counts>) returns (counts: map<Key, Counts>)
      ensures forall k :: k in counts <==> k in known || CountsAt(cs, k).Some?
      ensures forall k :: k in counts ==> counts[k] == if CountsAt(cs, k).Some? then CountsAt(cs, k).value else known[k]
    {
      counts := known;
      for i := 0 to |cs|
        invariant forall k :: k in counts <==> k in known || CountsAt(cs[..i], k).Some?
        invariant forall k :: k in counts ==>
                    counts[k] == if CountsAt(cs[..i], k).Some? then CountsAt(cs[..i], k).value else known[k]
      {
        assert cs[..i + 1][..i] == cs[..i];
        counts := counts[cs[i].key := cs[i].counts];
      }
      assert cs[..|cs|] == cs;
    }

    method IndexCounts() returns (counts: map<nat, map<Key, Counts>>)
      ensures forall r, k :: CountsIn(prev, r, k) == LookUp(counts, r, k)
    {
      hide CountsAt;
      counts := map[];
      for i := 0 to |prev|
        invariant forall r, k :: CountsIn(prev[..i], r, k) == LookUp(counts, r, k)
      {
        var b := prev[i];
        assert prev[..i + 1][..i] == prev[..i];
        ghost var was := counts;
        var own := IndexChannels(b.channels, if b.regId in counts then counts[b.regId] else map[]);
        counts := counts[b.regId := own];
        forall r, k
          ensures CountsIn(prev[..i + 1], r, k) == LookUp(counts, r, k)
        {
          assert CountsIn(prev[..i], r, k) == LookUp(was, r, k);
        }
      }
      assert prev[..|prev|] == prev;
    }

    method RateBoard(b: BoardSample, dt: real, bytes: map<nat, nat>, counts: map<nat, map<Key, Counts>>) returns (rate: BoardRate)
      requires dt > 0.0
      requires forall r :: if r in bytes then BytesIn(prev, r) == Some(bytes[r]) else BytesIn(prev, r) == None
      requires forall r, k :: CountsIn(prev, r, k) == LookUp(counts, r, k)
      ensures rate == BoardRateOf(prev, b, dt)
    {
      hide PerSecond, CountsIn, BytesIn;
      var pb := if b.regId in bytes then bytes[b.regId] else b.bytesWritten;
      var channels: seq<ChannelRate> := [];
      for i := 0 to |b.channels|
        invariant |channels| == i && forall j :: 0 <= j < i ==> channels[j] == ChannelRateOf(prev, b.regId, b.channels[j], dt)
      {
        var c := b.channels[i];
        assert CountsIn(prev, b.regId, c.key) == LookUp(counts, b.regId, c.key);
        var p := if b.regId in counts && c.key in counts[b.regId] then counts[b.regId][c.key] else NO_COUNTS;
        channels := channels + [ChannelRate(c.key, PerSecond(c.counts.events, p.events, dt),
                                            PerSecond(c.counts.pileup, p.pileup, dt),
                                            PerSecond(c.counts.lost, p.lost, dt), PerSecond(c.counts.satu, p.satu, dt))];
      }
      rate := BoardRate(b.regId, PerSecond(b.bytesWritten, pb, dt), b.boardFail, channels);
    }

    /** One tick. A sampler that throws leaves everything as it was, so the next tick covers both. */
    method Tick(sample: Option<seq<BoardSample>>, now: real)
      modifies this
      ensures sample.None? ==> prev == old(prev) && prevTime == old(prevTime) && latest == old(latest)
      ensures sample.Some? ==>
                && latest == RatesOf(old(prev), sample.value, if now > old(prevTime) then now - old(prevTime) else 0.000001)
                && prev == sample.value && prevTime == now
    {
      hide PerSecond, BytesIn, CountsIn;
      if sample.None? {
        return;
      }
      var cur := sample.value;
      var dt := Elapsed(prevTime, now);
      var bytes := IndexBytes();
      var counts := IndexCounts();
      var rates: seq<BoardRate> := [];
      for i := 0 to |cur|
        invariant |rates| == i && forall j :: 0 <= j < i ==> rates[j] == BoardRateOf(prev, cur[j], dt)
        invariant prev == old(prev)
      {
        var rate := RateBoard(cur[i], dt, bytes, counts);
        rates := rates + [rate];
      }
      latest := rates;
      prev := cur;
      prevTime := now;
    }
  }

  function LookUp(counts: map<nat, map<Key, Counts>>, regId: nat, key: Key): Option<Counts> {
    if regId in counts && key in counts[regId] then Some(counts[regId][key]) else None
  }

  // ----- what a tick reports -----

  lemma {:induction false} ChannelReported(prev: seq<BoardSample>, b: BoardSample, dt: real, key: Key, n: nat)
    requires dt > 0.0 && n <= |b.channels|
    ensures var r, c := RateAt(BoardRateOf(prev, b, dt).channels[..n], key), CountsAt(b.channels[..n], key);
            if c.Some? then r.Some? && r.value == ChannelRateOf(prev, b.regId, ChannelSample(key, c.value), dt) else r.None?
    decreases n
  {
    hide PerSecond, CountsIn;
    if n > 0 {
      ChannelReported(prev, b, dt, key, n - 1);
      assert b.channels[..n][..n - 1] == b.channels[..n - 1];
      var rates := BoardRateOf(prev, b, dt).channels;
      assert rates[..n][..n - 1] == rates[..n - 1];
    }
  }

  lemma {:induction false} TickReported(prev: seq<BoardSample>, cur: seq<BoardSample>, dt: real, regId: nat, key: Key, n: nat)
    requires dt > 0.0 && n <= |cur|
    ensures var r, c := RateIn(RatesOf(prev, cur, dt)[..n], regId, key), CountsIn(cur[..n], regId, key);
            if c.Some? then r.Some? && r.value == ChannelRateOf(prev, regId, ChannelSample(key, c.value), dt) else r.None?
    decreases n
  {
    hide ChannelRateOf, CountsAt, RateAt;
    if n > 0 {
      TickReported(prev, cur, dt, regId, key, n - 1);
      var b := cur[n - 1];
      ChannelReported(prev, b, dt, key, |b.channels|);
      assert b.channels[..|b.channels|] == b.channels;
      var rates := RatesOf(prev, cur, dt);
      assert rates[n - 1].channels[..|b.channels|] == rates[n - 1].channels;
      assert cur[..n][..n - 1] == cur[..n - 1] && rates[..n][..n - 1] == rates[..n - 1];
    }
  }

  /** Rate times time is what was counted since the last sample, for every channel and counter that did
      not go back. */
  lemma RateIsDifference(prev: seq<BoardSample>, cur: seq<BoardSample>, dt: real, regId: nat, key: Key, m: Metric)
    requires dt > 0.0 && Counted(prev, regId, key, m) <= Counted(cur, regId, key, m)
    ensures Reported(RatesOf(prev, cur, dt), regId, key, m) * dt ==
            (Counted(cur, regId, key, m) - Counted(prev, regId, key, m)) as real
  {
    hide RateIn, CountsIn, RatesOf, PerSecond;
    TickReported(prev, cur, dt, regId, key, |cur|);
    assert cur[..|cur|] == cur;
    assert RatesOf(prev, cur, dt)[..|cur|] == RatesOf(prev, cur, dt) by {
      SameNumber(prev, cur, dt);
    }
    RateTimesDt(Counted(cur, regId, key, m), Counted(prev, regId, key, m), dt);
  }

  lemma SameNumber(prev: seq<BoardSample>, cur: seq<BoardSample>, dt: real)
    requires dt > 0.0
    ensures |RatesOf(prev, cur, dt)| == |cur|
  {
  }

  /** No board occurs twice in a sample, and no channel twice in a board. */
  predicate UniqueSample(bs: seq<BoardSample>) {
    && (forall i, j :: 0 <= i < j < |bs| ==> bs[i].regId != bs[j].regId)
    && forall i :: 0 <= i < |bs| ==> UniqueChannels(bs[i].channels)
  }

  predicate UniqueChannels(cs: seq<ChannelSample>) { forall i, j :: 0 <= i < j < |cs| ==> cs[i].key != cs[j].key }

  lemma {:induction false} ListedChannel(cs: seq<ChannelSample>, j: nat)
    requires UniqueChannels(cs) && j < |cs|
    ensures CountsAt(cs, cs[j].key) == Some(cs[j].counts)
    decreases |cs|
  {
    if j < |cs| - 1 {
      ListedChannel(cs[..|cs| - 1], j);
    }
  }

  lemma {:induction false} UnlistedBoard(bs: seq<BoardSample>, regId: nat, key: Key)
    requires forall i :: 0 <= i < |bs| ==> bs[i].regId != regId
    ensures CountsIn(bs, regId, key) == None && BytesIn(bs, regId) == None
    decreases |bs|
  {
    if bs != [] {
      UnlistedBoard(bs[..|bs| - 1], regId, key);
    }
  }

  lemma {:induction false} UnlistedChannel(cs: seq<ChannelSample>, key: Key)
    requires forall j :: 0 <= j < |cs| ==> cs[j].key != key
    ensures CountsAt(cs, key) == None
    decreases |cs|
  {
    if cs != [] {
      UnlistedChannel(cs[..|cs| - 1], key);
    }
  }

  /** What a sample without repeats says of a board is what the entry of that board says. */
  lemma {:induction false} Listed(bs: seq<BoardSample>, i: nat, key: Key)
    requires UniqueSample(bs) && i < |bs|
    ensures BytesIn(bs, bs[i].regId) == Some(bs[i].bytesWritten)
    ensures CountsIn(bs, bs[i].regId, key) == CountsAt(bs[i].channels, key)
    decreases |bs|
  {
    hide CountsAt;
    var init := bs[..|bs| - 1];
    if i < |init| {
      Listed(init, i, key);
    } else {
      UnlistedBoard(init, bs[i].regId, key);
    }
  }

  /** The four published rates of a channel, times the elapsed time, are the four differences of its
      counters, each its own. */
  ghost predicate ChannelAdds(r: ChannelRate, now: Counts, before: Counts, dt: real) {
    && r.events * dt == (if now.events >= before.events then now.events - before.events else 0) as real
    && r.pileup * dt == (if now.pileup >= before.pileup then now.pileup - before.pileup else 0) as real
    && r.lost * dt == (if now.lost >= before.lost then now.lost - before.lost else 0) as real
    && r.satu * dt == (if now.satu >= before.satu then now.satu - before.satu else 0) as real
  }

  /** What is published, entry by entry: board ids, fail counts and channels as sampled; for a board and a
      channel that were in the previous sample, rate times time is the difference of the two entries, and
      for a channel that was not, its count; a board seen for the first time has rate 0. */
  lemma TickPublishes(prev: seq<BoardSample>, cur: seq<BoardSample>, dt: real, i: nat, j: nat)
    requires dt > 0.0 && UniqueSample(prev) && i < |cur| && j < |cur[i].channels|
    ensures var rs := RatesOf(prev, cur, dt);
            && |rs| == |cur| && rs[i].regId == cur[i].regId && rs[i].boardFail == cur[i].boardFail
            && |rs[i].channels| == |cur[i].channels| && rs[i].channels[j].key == cur[i].channels[j].key
    ensures var r := RatesOf(prev, cur, dt)[i];
            && (forall b :: 0 <= b < |prev| && prev[b].regId == cur[i].regId ==>
                  && r.writeRate * dt == (if cur[i].bytesWritten >= prev[b].bytesWritten
                                          then cur[i].bytesWritten - prev[b].bytesWritten else 0) as real
                  && (forall c :: 0 <= c < |prev[b].channels| && prev[b].channels[c].key == cur[i].channels[j].key ==>
                        ChannelAdds(r.channels[j], cur[i].channels[j].counts, prev[b].channels[c].counts, dt))
                  && ((forall c :: 0 <= c < |prev[b].channels| ==> prev[b].channels[c].key != cur[i].channels[j].key) ==>
                        ChannelAdds(r.channels[j], cur[i].channels[j].counts, NO_COUNTS, dt)))
            && ((forall b :: 0 <= b < |prev| ==> prev[b].regId != cur[i].regId) ==>
                  r.writeRate * dt == 0.0 && ChannelAdds(r.channels[j], cur[i].channels[j].counts, NO_COUNTS, dt))
  {
    hide PerSecond, CountsIn, BytesIn, CountsAt, ChannelAdds;
    var b0, c0 := cur[i], cur[i].channels[j];
    var known := CountsIn(prev, b0.regId, c0.key);
    ChannelAddsUp(prev, b0.regId, c0, dt);
    forall b | 0 <= b < |prev| && prev[b].regId == b0.regId
      ensures BytesIn(prev, b0.regId) == Some(prev[b].bytesWritten) && known == CountsAt(prev[b].channels, c0.key)
      ensures forall c :: 0 <= c < |prev[b].channels| && prev[b].channels[c].key == c0.key ==> known == Some(prev[b].channels[c].counts)
      ensures (forall c :: 0 <= c < |prev[b].channels| ==> prev[b].channels[c].key != c0.key) ==> known == None
    {
      Listed(prev, b, c0.key);
      EntryKnown(prev[b].channels, c0.key);
    }
    if forall b :: 0 <= b < |prev| ==> prev[b].regId != b0.regId {
      UnlistedBoard(prev, b0.regId, c0.key);
    }
    RateTimesDt(b0.bytesWritten, BytesBefore(prev, b0), dt);
  }

  lemma EntryKnown(cs: seq<ChannelSample>, key: Key)
    requires UniqueChannels(cs)
    ensures forall c :: 0 <= c < |cs| && cs[c].key == key ==> CountsAt(cs, key) == Some(cs[c].counts)
    ensures (forall c :: 0 <= c < |cs| ==> cs[c].key != key) ==> CountsAt(cs, key) == None
  {
    hide CountsAt;
    forall c | 0 <= c < |cs| && cs[c].key == key
      ensures CountsAt(cs, key) == Some(cs[c].counts)
    {
      ListedChannel(cs, c);
    }
    if forall c :: 0 <= c < |cs| ==> cs[c].key != key {
      UnlistedChannel(cs, key);
    }
  }

  lemma ChannelAddsUp(prev: seq<BoardSample>, regId: nat, c: ChannelSample, dt: real)
    requires dt > 0.0
    ensures ChannelAdds(ChannelRateOf(prev, regId, c, dt), c.counts,
                        match CountsIn(prev, regId, c.key) case Some(known) => known case None => NO_COUNTS, dt)
  {
    hide PerSecond, CountsIn;
    RateTimesDt(c.counts.events, Counted(prev, regId, c.key, Events), dt);
    RateTimesDt(c.counts.pileup, Counted(prev, regId, c.key, PileUp), dt);
    RateTimesDt(c.counts.lost, Counted(prev, regId, c.key, Lost), dt);
    RateTimesDt(c.counts.satu, Counted(prev, regId, c.key, Satu), dt);
  }

  // ----- any number of ticks -----

  /** A tick: when, and the sample unless the sampler threw. */
  datatype TickInput = TickInput(sample: Option<seq<BoardSample>>, now: real)

  /** Rate times the time between successful samples (a microsecond if the clock stood still), added up over
      the ticks, for one channel and counter. */
  function Produced(prev: seq<BoardSample>, prevTime: real, ticks: seq<TickInput>, regId: nat, key: Key, m: Metric): real
    decreases |ticks|
  {
    if ticks == [] then 0.0
    else match ticks[0].sample
      case None => Produced(prev, prevTime, ticks[1..], regId, key, m)
      case Some(cur) =>
        var dt := if ticks[0].now > prevTime then ticks[0].now - prevTime else 0.000001;
        Reported(RatesOf(prev, cur, dt), regId, key, m) * dt + Produced(cur, ticks[0].now, ticks[1..], regId, key, m)
  }

  function LastSample(prev: seq<BoardSample>, ticks: seq<TickInput>): seq<BoardSample>
    decreases |ticks|
  {
    if ticks == [] then prev
    else LastSample(if ticks[0].sample.Some? then ticks[0].sample.value else prev, ticks[1..])
  }

  /** A counter that never goes back from one sample to the next. */
  predicate NeverBack(prev: seq<BoardSample>, ticks: seq<TickInput>, regId: nat, key: Key, m: Metric)
    decreases |ticks|
  {
    ticks == [] ||
    (if ticks[0].sample.None? then NeverBack(prev, ticks[1..], regId, key, m)
     else
       && Counted(prev, regId, key, m) <= Counted(ticks[0].sample.value, regId, key, m)
       && NeverBack(ticks[0].sample.value, ticks[1..], regId, key, m))
  }

  /** Rates telescope: over any number of ticks, failed samples included, rate times real time adds up to the
      last count less the first, which is zero for a channel that was not there. */
  lemma {:induction false} RatesTelescope(prev: seq<BoardSample>, prevTime: real, ticks: seq<TickInput>, regId: nat, key: Key, m: Metric)
    requires NeverBack(prev, ticks, regId, key, m)
    ensures Produced(prev, prevTime, ticks, regId, key, m) ==
            (Counted(LastSample(prev, ticks), regId, key, m) - Counted(prev, regId, key, m)) as real
    decreases |ticks|
  {
    hide Counted, Reported, RatesOf;
    if ticks != [] {
      match ticks[0].sample
      case None => RatesTelescope(prev, prevTime, ticks[1..], regId, key, m);
      case Some(cur) =>
        RateIsDifference(prev, cur, if ticks[0].now > prevTime then ticks[0].now - prevTime else 0.000001, regId, key, m);
        RatesTelescope(cur, ticks[0].now, ticks[1..], regId, key, m);
    }
  }

  /** The same for the bytes written, whose first sight counts from itself. */
  function BytesProduced(prev: seq<BoardSample>, prevTime: real, ticks: seq<TickInput>, regId: nat): real
    decreases |ticks|
  {
    if ticks == [] then 0.0
    else match ticks[0].sample
      case None => BytesProduced(prev, prevTime, ticks[1..], regId)
      case Some(cur) =>
        var dt := if ticks[0].now > prevTime then ticks[0].now - prevTime else 0.000001;
        WriteRateIn(RatesOf(prev, cur, dt), regId) * dt + BytesProduced(cur, ticks[0].now, ticks[1..], regId)
  }

  lemma {:induction false} WriteRateReported(prev: seq<BoardSample>, cur: seq<BoardSample>, dt: real, regId: nat, n: nat)
    requires dt > 0.0 && n <= |cur|
    ensures var w := WriteRateIn(RatesOf(prev, cur, dt)[..n], regId);
            match BytesIn(cur[..n], regId)
            case None => w == 0.0
            case Some(bytes) => w == PerSecond(bytes, if BytesIn(prev, regId).Some? then BytesIn(prev, regId).value else bytes, dt)
    decreases n
  {
    hide PerSecond, ChannelRateOf;
    if n > 0 {
      WriteRateReported(prev, cur, dt, regId, n - 1);
      var rates := RatesOf(prev, cur, dt);
      assert cur[..n][..n - 1] == cur[..n - 1] && rates[..n][..n - 1] == rates[..n - 1];
    }
  }

  /** Once seen, a board stays, and its bytes never go back. */
  predicate BytesNeverBack(prev: seq<BoardSample>, ticks: seq<TickInput>, regId: nat)
    decreases |ticks|
  {
    ticks == [] ||
    (if ticks[0].sample.None? then BytesNeverBack(prev, ticks[1..], regId)
     else
       var before, after := BytesIn(prev, regId), BytesIn(ticks[0].sample.value, regId);
       && (before.Some? ==> after.Some? && before.value <= after.value)
       && BytesNeverBack(ticks[0].sample.value, ticks[1..], regId))
  }

  /** The bytes at first sight. */
  function FirstBytes(prev: seq<BoardSample>, ticks: seq<TickInput>, regId: nat): nat
    decreases |ticks|
  {
    if BytesIn(prev, regId).Some? then BytesIn(prev, regId).value
    else if ticks == [] then 0
    else FirstBytes(if ticks[0].sample.Some? then ticks[0].sample.value else prev, ticks[1..], regId)
  }

  function LastBytes(bs: seq<BoardSample>, regId: nat): nat {
    if BytesIn(bs, regId).Some? then BytesIn(bs, regId).value else 0
  }

  lemma {:induction false} WriteRatesTelescope(prev: seq<BoardSample>, prevTime: real, ticks: seq<TickInput>, regId: nat)
    requires BytesNeverBack(prev, ticks, regId)
    ensures BytesProduced(prev, prevTime, ticks, regId) ==
            (LastBytes(LastSample(prev, ticks), regId) - FirstBytes(prev, ticks, regId)) as real
    decreases |ticks|
  {
    hide WriteRateIn, RatesOf, BytesIn, PerSecond;
    if ticks != [] {
      match ticks[0].sample
      case None => WriteRatesTelescope(prev, prevTime, ticks[1..], regId);
      case Some(cur) =>
        var dt := if ticks[0].now > prevTime then ticks[0].now - prevTime else 0.000001;
        WriteRateIsDifference(prev, cur, dt, regId);
        WriteRatesTelescope(cur, ticks[0].now, ticks[1..], regId);
    }
  }

  lemma WriteRateIsDifference(prev: seq<BoardSample>, cur: seq<BoardSample>, dt: real, regId: nat)
    requires dt > 0.0
    requires var before, after := BytesIn(prev, regId), BytesIn(cur, regId);
             before.Some? ==> after.Some? && before.value <= after.value
    ensures WriteRateIn(RatesOf(prev, cur, dt), regId) * dt ==
            (if BytesIn(prev, regId).Some? then BytesIn(cur, regId).value - BytesIn(prev, regId).value else 0) as real
  {
    hide WriteRateIn, RatesOf, BytesIn, PerSecond;
    WriteRateReported(prev, cur, dt, regId, |cur|);
    SameNumber(prev, cur, dt);
    assert cur[..|cur|] == cur && RatesOf(prev, cur, dt)[..|cur|] == RatesOf(prev, cur, dt);
    if BytesIn(cur, regId).Some? {
      var bytes := BytesIn(cur, regId).value;
      RateTimesDt(bytes, if BytesIn(prev, regId).Some? then BytesIn(prev, regId).value else bytes, dt);
    }
  }
}
