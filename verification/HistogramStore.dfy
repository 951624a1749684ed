/** The online spectra: accumulators per channel that always agree with the history of their events. */
module HistogramStores {
  import opened Words
  import opened Arithmetic
  import opened Stamping
  import opened EventRanges
  import opened Parsing

  const ENERGY_BINS: nat := 32768
  const QSHORT_BINS: nat := 32768
  const QLONG_BINS: nat := 65536
  const PSD_X_BINS: nat := 2048
  const PSD_Y_BINS: nat := 256
  const QLONG_MAX: nat := 65536
  const INTERVAL_BINS: nat := 1000

  /** The field types of an event: 16 bits each. */
  predicate Fits(e: DecodedEvent) {
    e.board < 0x1_0000 && e.channel < 0x1_0000 && e.energy < 0x1_0000 && e.qshort < 0x1_0000 && e.qlong < 0x1_0000
  }

  datatype Counts = Counts(events: nat, pileup: nat, lost: nat, satu: nat)

  const NO_COUNTS := Counts(0, 0, 0, 0)

  datatype Channel = Channel(
    energy: seq<nat>, qshort: seq<nat>, qlong: seq<nat>, psd: seq<nat>, interval: seq<nat>,
    lastTimePs: int,
    lastWave: seq<nat>, lastWaveGood: seq<nat>, lastWavePileup: seq<nat>, lastWaveSatu: seq<nat>,
    counts: Counts)

  const UNSEEN := Channel([], [], [], [], [], -1, [], [], [], [], NO_COUNTS)

  datatype Key = Key(board: nat, channel: nat)

  /** Board in the upper half word, channel in the lower. */
  function PackKey(k: Key): nat { k.board * 0x1_0000 + k.channel }

  /** Distinct channels have distinct keys, and the key names its channel. */
  lemma KeyNamesChannel(k: Key)
    requires k.board < 0x1_0000 && k.channel < 0x1_0000
    ensures PackKey(k) < 0x1_0000_0000
    ensures k == Key(PackKey(k) / 0x1_0000, PackKey(k) % 0x1_0000)
  {
  }

  // ----- spectra -----

  datatype Spectrum = Energy | QShort | QLong | Psd

  function BinsOf(s: Spectrum): nat {
    match s
    case Energy => ENERGY_BINS
    case QShort => QSHORT_BINS
    case QLong => QLONG_BINS
    case Psd => PSD_X_BINS * PSD_Y_BINS
  }

  /** Events that a spectrum takes notice of. */
  predicate Concerns(s: Spectrum, e: DecodedEvent) {
    match s
    case Energy => e.energy != 0
    case QShort => e.qshort != 0 || e.qlong != 0
    case QLong => e.qshort != 0 || e.qlong != 0
    case Psd => e.qlong > 0
  }

  function PsdColumn(qlong: nat): nat {
    var x := qlong * PSD_X_BINS / QLONG_MAX;
    if x >= PSD_X_BINS then PSD_X_BINS - 1 else x
  }

  /** 1 - qshort/qlong in exact arithmetic, clamped to [0, 1], in 256 steps. */
  function PsdRow(qshort: nat, qlong: nat): nat
    requires qlong > 0
  {
    var ratio := 1.0 - qshort as real / qlong as real;
    var clamped := if ratio < 0.0 then 0.0 else if ratio > 1.0 then 1.0 else ratio;
    var y := (clamped * PSD_Y_BINS as real).Floor;
    if y >= PSD_Y_BINS then PSD_Y_BINS - 1 else y
  }

  /** Where an event falls in a spectrum it concerns. */
  function BinOf(s: Spectrum, e: DecodedEvent): nat
    requires Concerns(s, e)
  {
    match s
    case Energy => e.energy
    case QShort => e.qshort
    case QLong => e.qlong
    case Psd => PsdColumn(e.qlong) * PSD_Y_BINS + PsdRow(e.qshort, e.qlong)
  }

  predicate FallsIn(s: Spectrum, e: DecodedEvent, bin: nat) { Concerns(s, e) && BinOf(s, e) == bin }

  /** Bin indices are within their spectrum: always for the long charge and the two-dimensional plot, and
      in all spectra for every event a decoder can deliver. */
  lemma BinsInBounds(s: Spectrum, e: DecodedEvent)
    requires Fits(e) && Concerns(s, e)
    ensures s == QLong || s == Psd || DecodedInRange(e) ==> BinOf(s, e) < BinsOf(s)
  {
    if s == Psd {
      assert PsdColumn(e.qlong) <= PSD_X_BINS - 1 && PsdRow(e.qshort, e.qlong) <= PSD_Y_BINS - 1;
    }
  }

  /** The row is the exact one: 256 times the clamped ratio, rounded down, the top row closed. */
  lemma PsdRowExact(qshort: nat, qlong: nat)
    requires qlong > 0
    ensures var y := PsdRow(qshort, qlong);
            if qshort >= qlong then y == 0
            else if qshort == 0 then y == PSD_Y_BINS - 1
            else y * qlong <= (qlong - qshort) * PSD_Y_BINS < y * qlong + qlong
  {
    hide PsdRow;
    var r := qshort as real / qlong as real;
    assert r * qlong as real == qshort as real;
    if qshort >= qlong {
      AtLeastOne(qshort as real, qlong as real, r);
      RowOfRatio(qshort, qlong, r);
    } else if qshort == 0 {
      RowOfRatio(qshort, qlong, 0.0);
    } else {
      RatioBetween(qshort as real, qlong as real, r);
      RowOfRatio(qshort, qlong, r);
      RowBounds(qshort, qlong, r, PsdRow(qshort, qlong));
    }
  }

  lemma RowOfRatio(qshort: nat, qlong: nat, r: real)
    requires qlong > 0 && r == qshort as real / qlong as real && r >= 0.0
    ensures PsdRow(qshort, qlong) == if r >= 1.0 then 0 else if r == 0.0 then PSD_Y_BINS - 1 else ((1.0 - r) * 256.0).Floor
  {
  }

  lemma RowBounds(qshort: nat, qlong: nat, r: real, y: nat)
    requires 0 < qshort < qlong && r * qlong as real == qshort as real && y == ((1.0 - r) * 256.0).Floor
    ensures y * qlong <= (qlong - qshort) * PSD_Y_BINS < y * qlong + qlong
  {
    var v, q := (1.0 - r) * 256.0, qlong as real;
    var top := (qlong - qshort) * PSD_Y_BINS;
    Distribute(r, q);
    CastProduct(y, qlong);
    var x, l := v * q, y as real * q;
    ScaledBounds(y as real, v, q, l, x);
    CastOrder(y * qlong, top, qlong, x, l + q);
  }

  lemma CastOrder(low: int, top: int, step: int, x: real, z: real)
    requires low as real <= x == top as real && x < z == low as real + step as real
    ensures low <= top < low + step
  {
  }

  lemma Distribute(r: real, q: real)
    ensures (1.0 - r) * 256.0 * q == 256.0 * q - 256.0 * (r * q)
  {
  }

  lemma CastProduct(a: nat, b: nat)
    ensures (a * b) as real == a as real * b as real
  {
  }

  lemma RatioBetween(a: real, b: real, r: real)
    requires 0.0 < a < b && r * b == a
    ensures 0.0 < r < 1.0
  {
    assert r >= 1.0 ==> (r - 1.0) * b >= 0.0;
    assert r <= 0.0 ==> r * b <= 0.0;
  }

  lemma AtLeastOne(a: real, b: real, r: real)
    requires 0.0 < b <= a && r * b == a
    ensures r >= 1.0
  {
  }

  lemma ScaledBounds(low: real, v: real, q: real, l: real, x: real)
    requires low <= v < low + 1.0 && q > 0.0 && l == low * q && x == v * q
    ensures l <= x < l + q
  {
    var gap, rest := v - low, low + 1.0 - v;
    var g, r := gap * q, rest * q;
    Signs(gap, q, g);
    Signs(rest, q, r);
    GapScaled(v, low, gap, q, x, l, g);
    RestScaled(v, low, rest, q, x, l, r);
  }

  lemma Signs(d: real, q: real, p: real)
    requires d >= 0.0 && q > 0.0 && p == d * q
    ensures p >= 0.0 && (d > 0.0 ==> p > 0.0)
  {
  }

  lemma GapScaled(v: real, low: real, d: real, q: real, x: real, l: real, g: real)
    requires d == v - low && x == v * q && l == low * q && g == d * q
    ensures g == x - l
  {
  }

  lemma RestScaled(v: real, low: real, d: real, q: real, x: real, l: real, r: real)
    requires d == low + 1.0 - v && x == v * q && l == low * q && r == d * q
    ensures r == l + q - x
  {
  }

  // ----- histories -----

  function InitOf(h: seq<DecodedEvent>): seq<DecodedEvent>
    requires h != []
  {
    h[..|h| - 1]
  }

  function LastOf(h: seq<DecodedEvent>): DecodedEvent
    requires h != []
  {
    h[|h| - 1]
  }

  /** How many events of a history fall in a bin. */
  function CountIn(s: Spectrum, h: seq<DecodedEvent>, bin: nat): nat {
    if h == [] then 0 else CountIn(s, InitOf(h), bin) + (if FallsIn(s, LastOf(h), bin) then 1 else 0)
  }

  /** How many events concern a spectrum. */
  function CountAll(s: Spectrum, h: seq<DecodedEvent>): nat {
    if h == [] then 0 else CountAll(s, InitOf(h)) + (if Concerns(s, LastOf(h)) then 1 else 0)
  }

  function CountsOf(h: seq<DecodedEvent>): Counts {
    if h == [] then NO_COUNTS
    else
      var c, e := CountsOf(InitOf(h)), LastOf(h);
      Counts(c.events + 1, c.pileup + (if e.pileup then 1 else 0), c.lost + (if e.lost then 1 else 0),
             c.satu + (if e.satu then 1 else 0))
  }

  /** The latest positive time so far, or -1. */
  function LastTime(h: seq<DecodedEvent>): (t: int)
    ensures t == -1 || t > 0
  {
    if h == [] then -1
    else var t := LastTime(InitOf(h)); if LastOf(h).timePs > 0 && LastOf(h).timePs > t then LastOf(h).timePs else t
  }

  /** The first positive time, or -1. */
  function FirstTime(h: seq<DecodedEvent>): int {
    if h == [] then -1
    else var t := FirstTime(InitOf(h)); if t == -1 && LastOf(h).timePs > 0 then LastOf(h).timePs else t
  }

  /** An event later than all before it. */
  predicate Advances(h: seq<DecodedEvent>, e: DecodedEvent) { e.timePs > 0 && e.timePs > LastTime(h) }

  /** How often the latest time advanced, the first positive time included. */
  function Maxima(h: seq<DecodedEvent>): nat {
    if h == [] then 0 else Maxima(InitOf(h)) + (if Advances(InitOf(h), LastOf(h)) then 1 else 0)
  }

  /** The gaps from one running maximum to the next. */
  function Gaps(h: seq<DecodedEvent>): seq<int> {
    if h == [] then []
    else
      var t := LastTime(InitOf(h));
      Gaps(InitOf(h)) + (if t >= 0 && Advances(InitOf(h), LastOf(h)) then [LastOf(h).timePs - t] else [])
  }

  function Sum(xs: seq<int>): int {
    if xs == [] then 0 else Sum(xs[..|xs| - 1]) + xs[|xs| - 1]
  }

  lemma SumNext(xs: seq<int>, x: int)
    ensures Sum(xs + [x]) == Sum(xs) + x
  {
    assert (xs + [x])[..|xs|] == xs;
  }

  datatype WaveKind = Any | Good | Pileup | Saturated

  predicate WaveCounts(k: WaveKind, e: DecodedEvent) {
    e.wave != [] && match k
                    case Any => true
                    case Good => !e.pileup && !e.satu
                    case Pileup => e.pileup
                    case Saturated => e.satu
  }

  /** The latest trace of a kind. */
  function LatestWave(k: WaveKind, h: seq<DecodedEvent>): seq<nat> {
    if h == [] then [] else if WaveCounts(k, LastOf(h)) then LastOf(h).wave else LatestWave(k, InitOf(h))
  }

  /** The interval axis: any function from a gap to a bin number, clamped by the store. */
  function Clamped(bin: int): (b: nat)
    ensures b < INTERVAL_BINS
  {
    if bin < 0 then 0 else if bin >= INTERVAL_BINS then INTERVAL_BINS - 1 else bin
  }

  function GapsIn(axis: int -> int, gaps: seq<int>, bin: nat): nat {
    if gaps == [] then 0
    else GapsIn(axis, gaps[..|gaps| - 1], bin) + (if Clamped(axis(gaps[|gaps| - 1])) == bin then 1 else 0)
  }

  // ----- what the accumulators mean -----

  predicate SpectrumIs(s: Spectrum, bins: seq<nat>, h: seq<DecodedEvent>) {
    && (bins == [] <==> CountAll(s, h) == 0)
    && (bins != [] ==> |bins| == BinsOf(s) && forall b :: 0 <= b < |bins| ==> bins[b] == CountIn(s, h, b))
  }

  predicate IntervalIs(axis: int -> int, bins: seq<nat>, gaps: seq<int>) {
    && (bins == [] <==> gaps == [])
    && (bins != [] ==> |bins| == INTERVAL_BINS && forall b :: 0 <= b < |bins| ==> bins[b] == GapsIn(axis, gaps, b))
  }

  function SpectrumOf(c: Channel, s: Spectrum): seq<nat> {
    match s
    case Energy => c.energy
    case QShort => c.qshort
    case QLong => c.qlong
    case Psd => c.psd
  }

  function WaveOf(c: Channel, k: WaveKind): seq<nat> {
    match k
    case Any => c.lastWave
    case Good => c.lastWaveGood
    case Pileup => c.lastWavePileup
    case Saturated => c.lastWaveSatu
  }

  predicate SpectraAgree(c: Channel, h: seq<DecodedEvent>) {
    forall s :: SpectrumIs(s, SpectrumOf(c, s), h)
  }

  /** A channel tells its history. */
  predicate Agrees(axis: int -> int, c: Channel, h: seq<DecodedEvent>) {
    && SpectraAgree(c, h)
    && IntervalIs(axis, c.interval, Gaps(h)) && c.lastTimePs == LastTime(h)
    && (forall k :: WaveOf(c, k) == LatestWave(k, h))
    && c.counts == CountsOf(h)
  }

  lemma UnseenAgrees(axis: int -> int)
    ensures Agrees(axis, UNSEEN, [])
  {
  }

  // ----- one event -----

  /** `++bins[bin]` on a spectrum allocated at its first event. */
  method Bump(bins: seq<nat>, size: nat, bin: nat) returns (bins': seq<nat>)
    requires bins == [] || |bins| == size
    ensures |bins'| == size
    ensures forall b :: 0 <= b < size ==> bins'[b] == (if bins == [] then 0 else bins[b]) + (if b == bin then 1 else 0)
  {
    bins' := if bins == [] then seq(size, i => 0) else bins;
    if bin < size {
      bins' := bins'[bin := bins'[bin] + 1];
    }
  }

  lemma NextSpectrum(s: Spectrum, bins: seq<nat>, bins': seq<nat>, h: seq<DecodedEvent>, e: DecodedEvent)
    requires SpectrumIs(s, bins, h)
    requires if Concerns(s, e) then
               && |bins'| == BinsOf(s)
               && forall b :: 0 <= b < |bins'| ==> bins'[b] == (if bins == [] then 0 else bins[b]) + (if b == BinOf(s, e) then 1 else 0)
             else bins' == bins
    ensures SpectrumIs(s, bins', h + [e])
  {
    hide BinOf, Concerns;
    assert InitOf(h + [e]) == h && LastOf(h + [e]) == e;
    if bins == [] {
      NoneIn(s, h);
    }
    assert BinsOf(s) > 0;
    assert CountAll(s, h + [e]) == CountAll(s, h) + if Concerns(s, e) then 1 else 0;
    forall b | 0 <= b < |bins'|
      ensures bins'[b] == CountIn(s, h + [e], b)
    {
      assert CountIn(s, h + [e], b) == CountIn(s, h, b) + if FallsIn(s, e, b) then 1 else 0;
    }
  }

  /** Nothing is counted before the first event that concerns the spectrum. */
  lemma {:induction false} NoneIn(s: Spectrum, h: seq<DecodedEvent>)
    requires CountAll(s, h) == 0
    ensures forall b :: CountIn(s, h, b) == 0
    decreases |h|
  {
    hide BinOf, Concerns;
    if h != [] {
      NoneIn(s, InitOf(h));
    }
  }

  lemma NextInterval(axis: int -> int, bins: seq<nat>, bins': seq<nat>, gaps: seq<int>, gap: int)
    requires IntervalIs(axis, bins, gaps)
    requires |bins'| == INTERVAL_BINS
    requires forall b :: 0 <= b < INTERVAL_BINS ==>
               bins'[b] == (if bins == [] then 0 else bins[b]) + (if b == Clamped(axis(gap)) then 1 else 0)
    ensures IntervalIs(axis, bins', gaps + [gap])
  {
    assert (gaps + [gap])[..|gaps|] == gaps;
  }

  lemma NextHistory(h: seq<DecodedEvent>, e: DecodedEvent)
    ensures var h' := h + [e];
            && LastTime(h') == (if Advances(h, e) then e.timePs else LastTime(h))
            && Gaps(h') == (if LastTime(h) >= 0 && Advances(h, e) then Gaps(h) + [e.timePs - LastTime(h)] else Gaps(h))
            && (forall k :: LatestWave(k, h') == if WaveCounts(k, e) then e.wave else LatestWave(k, h))
            && CountsOf(h').events == CountsOf(h).events + 1
            && CountsOf(h') == Counts(CountsOf(h).events + 1, CountsOf(h).pileup + (if e.pileup then 1 else 0),
                                      CountsOf(h).lost + (if e.lost then 1 else 0), CountsOf(h).satu + (if e.satu then 1 else 0))
  {
    assert InitOf(h + [e]) == h && LastOf(h + [e]) == e;
  }

  method FillEnergy(bins: seq<nat>, ghost h: seq<DecodedEvent>, e: DecodedEvent) returns (bins': seq<nat>)
    requires SpectrumIs(Energy, bins, h) && e.energy < 0x1_0000
    ensures SpectrumIs(Energy, bins', h + [e])
  {
    hide CountIn, CountAll;
    bins' := bins;
    if e.energy != 0 {
      bins' := Bump(bins, ENERGY_BINS, e.energy);
    }
    NextSpectrum(Energy, bins, bins', h, e);
  }

  method FillCharges(qshort: seq<nat>, qlong: seq<nat>, ghost h: seq<DecodedEvent>, e: DecodedEvent)
    returns (qshort': seq<nat>, qlong': seq<nat>)
    requires SpectrumIs(QShort, qshort, h) && SpectrumIs(QLong, qlong, h) && e.qlong < 0x1_0000
    ensures SpectrumIs(QShort, qshort', h + [e]) && SpectrumIs(QLong, qlong', h + [e])
  {
    hide CountIn, CountAll;
    qshort', qlong' := qshort, qlong;
    if e.qshort != 0 || e.qlong != 0 {
      qshort' := Bump(qshort, QSHORT_BINS, e.qshort);
      qlong' := Bump(qlong, QLONG_BINS, e.qlong);
    }
    NextSpectrum(QShort, qshort, qshort', h, e);
    NextSpectrum(QLong, qlong, qlong', h, e);
  }

  method FillPsd(psd: seq<nat>, ghost h: seq<DecodedEvent>, e: DecodedEvent) returns (psd': seq<nat>)
    requires SpectrumIs(Psd, psd, h) && e.qlong < 0x1_0000
    ensures SpectrumIs(Psd, psd', h + [e])
  {
    hide CountIn, CountAll, PsdRow, PsdColumn;
    psd' := psd;
    if e.qlong > 0 {
      psd' := Bump(psd, PSD_X_BINS * PSD_Y_BINS, PsdColumn(e.qlong) * PSD_Y_BINS + PsdRow(e.qshort, e.qlong));
    }
    NextSpectrum(Psd, psd, psd', h, e);
  }

  /** What one event does to the spectra of its channel. */
  method FillSpectra(c: Channel, ghost h: seq<DecodedEvent>, e: DecodedEvent) returns (c': Channel)
    requires SpectraAgree(c, h) && Fits(e)
    ensures SpectraAgree(c', h + [e])
    ensures c' == c.(energy := c'.energy, qshort := c'.qshort, qlong := c'.qlong, psd := c'.psd)
  {
    hide SpectrumIs;
    Spectra(c, h);
    var energy := FillEnergy(c.energy, h, e);
    var short, long := FillCharges(c.qshort, c.qlong, h, e);
    var psd := FillPsd(c.psd, h, e);
    c' := c.(energy := energy, qshort := short, qlong := long, psd := psd);
    AllSpectra(c', h + [e]);
  }

  lemma Spectra(c: Channel, h: seq<DecodedEvent>)
    requires SpectraAgree(c, h)
    ensures SpectrumIs(Energy, c.energy, h) && SpectrumIs(QShort, c.qshort, h)
    ensures SpectrumIs(QLong, c.qlong, h) && SpectrumIs(Psd, c.psd, h)
  {
    hide SpectrumIs;
    assert SpectrumIs(Energy, SpectrumOf(c, Energy), h) && SpectrumIs(QShort, SpectrumOf(c, QShort), h);
    assert SpectrumIs(QLong, SpectrumOf(c, QLong), h) && SpectrumIs(Psd, SpectrumOf(c, Psd), h);
  }

  lemma AllSpectra(c: Channel, h: seq<DecodedEvent>)
    requires SpectrumIs(Energy, c.energy, h) && SpectrumIs(QShort, c.qshort, h)
    requires SpectrumIs(QLong, c.qlong, h) && SpectrumIs(Psd, c.psd, h)
    ensures SpectraAgree(c, h)
  {
    hide SpectrumIs;
  }

  /** The interval part of one event: a straggler is skipped and never moves time back. */
  method FillTime(axis: int -> int, c: Channel, ghost h: seq<DecodedEvent>, e: DecodedEvent) returns (c': Channel)
    requires IntervalIs(axis, c.interval, Gaps(h)) && c.lastTimePs == LastTime(h)
    ensures IntervalIs(axis, c'.interval, Gaps(h + [e])) && c'.lastTimePs == LastTime(h + [e])
    ensures c' == c.(interval := c'.interval, lastTimePs := c'.lastTimePs)
  {
    hide GapsIn, LatestWave, CountsOf, Clamped;
    NextHistory(h, e);
    c' := c;
    if e.timePs > 0 {
      if c.lastTimePs >= 0 && e.timePs > c.lastTimePs {
        var bin := Clamped(axis(e.timePs - c.lastTimePs));
        var bins := Bump(c.interval, INTERVAL_BINS, bin);
        NextInterval(axis, c.interval, bins, Gaps(h), e.timePs - c.lastTimePs);
        c' := c'.(interval := bins);
      }
      if e.timePs > c.lastTimePs {
        c' := c'.(lastTimePs := e.timePs);
      }
    }
  }

  /** The traces kept by kind; a saturated pile-up event belongs to both kinds. */
  method FillWaves(c: Channel, ghost h: seq<DecodedEvent>, e: DecodedEvent) returns (c': Channel)
    requires forall k :: WaveOf(c, k) == LatestWave(k, h)
    ensures forall k :: WaveOf(c', k) == LatestWave(k, h + [e])
    ensures c' == c.(lastWave := c'.lastWave, lastWaveGood := c'.lastWaveGood,
                     lastWavePileup := c'.lastWavePileup, lastWaveSatu := c'.lastWaveSatu)
  {
    hide Gaps, LastTime, CountsOf;
    NextHistory(h, e);
    c' := c;
    if e.wave != [] {
      c' := c'.(lastWave := e.wave);
      if e.pileup {
        c' := c'.(lastWavePileup := e.wave);
      }
      if e.satu {
        c' := c'.(lastWaveSatu := e.wave);
      }
      if !e.pileup && !e.satu {
        c' := c'.(lastWaveGood := e.wave);
      }
    }
    forall k
      ensures WaveOf(c', k) == LatestWave(k, h + [e])
    {
      assert WaveOf(c, k) == LatestWave(k, h);
    }
  }

  /** All that one event does to its channel. */
  method FillChannel(axis: int -> int, c: Channel, ghost h: seq<DecodedEvent>, e: DecodedEvent) returns (c': Channel)
    requires Agrees(axis, c, h) && Fits(e)
    ensures Agrees(axis, c', h + [e])
  {
    hide SpectrumIs, IntervalIs, LatestWave, Gaps, LastTime, CountsOf, Fits;
    c' := FillSpectra(c, h, e);
    var c2 := FillTime(axis, c', h, e);
    c2 := FillWaves(c2, h, e);
    NextHistory(h, e);
    var n := c2.counts.(events := c2.counts.events + 1);
    if e.pileup {
      n := n.(pileup := n.pileup + 1);
    }
    if e.lost {
      n := n.(lost := n.lost + 1);
    }
    if e.satu {
      n := n.(satu := n.satu + 1);
    }
    var c3 := c2.(counts := n);
    SameSpectra(c', c3, h + [e]);
    forall k
      ensures WaveOf(c3, k) == LatestWave(k, h + [e])
    {
      assert WaveOf(c2, k) == LatestWave(k, h + [e]);
    }
    c' := c3;
  }

  lemma SameSpectra(a: Channel, b: Channel, h: seq<DecodedEvent>)
    requires SpectraAgree(a, h) && forall s :: SpectrumOf(a, s) == SpectrumOf(b, s)
    ensures SpectraAgree(b, h)
  {
    hide SpectrumIs;
    forall s
      ensures SpectrumIs(s, SpectrumOf(b, s), h)
    {
      assert SpectrumIs(s, SpectrumOf(a, s), h);
    }
  }

  // ----- the same counted by the fields of the events -----

  predicate AllFit(h: seq<DecodedEvent>) { forall i :: 0 <= i < |h| ==> Fits(h[i]) }

  /** How many events of a history satisfy `p`. */
  function Number(h: seq<DecodedEvent>, p: DecodedEvent -> bool): nat {
    if h == [] then 0 else Number(InitOf(h), p) + (if p(LastOf(h)) then 1 else 0)
  }

  lemma {:induction false} CountedBy(s: Spectrum, h: seq<DecodedEvent>, bin: nat, p: DecodedEvent -> bool)
    requires forall i :: 0 <= i < |h| ==> (FallsIn(s, h[i], bin) <==> p(h[i]))
    ensures CountIn(s, h, bin) == Number(h, p)
    decreases |h|
  {
    hide FallsIn;
    if h != [] {
      var n := |h| - 1;
      assert FallsIn(s, h[n], bin) <==> p(h[n]);
      CountedBy(s, InitOf(h), bin, p);
    }
  }

  lemma {:induction false} ConcernedBy(s: Spectrum, h: seq<DecodedEvent>, p: DecodedEvent -> bool)
    requires forall i :: 0 <= i < |h| ==> (Concerns(s, h[i]) <==> p(h[i]))
    ensures CountAll(s, h) == Number(h, p)
    decreases |h|
  {
    hide Concerns;
    if h != [] {
      var n := |h| - 1;
      assert Concerns(s, h[n]) <==> p(h[n]);
      ConcernedBy(s, InitOf(h), p);
    }
  }

  /** A row of the plot: 256 times 1 - qshort/qlong, rounded down; the top row holds the ratio 1 too. */
  predicate InRow(qshort: nat, qlong: nat, y: nat) {
    if qshort >= qlong then y == 0
    else if qshort == 0 then y == 255
    else y * qlong <= (qlong - qshort) * 256 < y * qlong + qlong
  }

  lemma RowIffInRow(qshort: nat, qlong: nat, y: nat)
    requires qlong > 0
    ensures PsdRow(qshort, qlong) == y <==> InRow(qshort, qlong, y)
  {
    hide PsdRow;
    PsdRowExact(qshort, qlong);
    var r := PsdRow(qshort, qlong);
    if 0 < qshort < qlong && InRow(qshort, qlong, y) {
      SameFloor((qlong - qshort) * 256, qlong, r, y);
    }
  }

  lemma SameFloor(x: nat, q: nat, a: nat, b: nat)
    requires q > 0 && a * q <= x < a * q + q && b * q <= x < b * q + q
    ensures a == b
  {
    PeriodsIsProduct(a, q);
    PeriodsIsProduct(b, q);
    DivisionUnique(x, q, a, x - a * q);
    DivisionUnique(x, q, b, x - b * q);
  }

  predicate InCell(e: DecodedEvent, c: nat, y: nat) {
    e.qlong > 0 && 32 * c <= e.qlong < 32 * c + 32 && InRow(e.qshort, e.qlong, y)
  }

  lemma CellIffInCell(e: DecodedEvent, c: nat, y: nat)
    requires Fits(e) && c < 2048 && y < 256
    ensures FallsIn(Psd, e, c * 256 + y) <==> InCell(e, c, y)
  {
    hide InRow, PsdRow;
    if e.qlong > 0 {
      RowIffInRow(e.qshort, e.qlong, y);
      RowBelow(e.qshort, e.qlong);
      ColumnIff(e.qlong, c);
      CellSplits(PsdColumn(e.qlong), PsdRow(e.qshort, e.qlong), c, y);
    }
  }

  lemma RowBelow(qshort: nat, qlong: nat)
    requires qlong > 0
    ensures PsdRow(qshort, qlong) < 256
  {
  }

  lemma ColumnIff(qlong: nat, c: nat)
    requires qlong < 0x1_0000 && c < 2048
    ensures PsdColumn(qlong) == c <==> 32 * c <= qlong < 32 * c + 32
  {
    assert qlong * 2048 / 65536 == qlong / 32;
  }

  lemma CellSplits(a: nat, r: nat, c: nat, y: nat)
    requires r < 256 && y < 256
    ensures a * 256 + r == c * 256 + y <==> a == c && r == y
  {
  }

  /** What the bins of a spectrum tell, in the fields of the events of its history. */
  ghost predicate Tells(s: Spectrum, bins: seq<nat>, h: seq<DecodedEvent>) {
    match s
    case Energy =>
      && (bins == [] <==> Number(h, (e: DecodedEvent) => e.energy != 0) == 0)
      && (bins != [] ==> |bins| == 32768 && forall b :: 0 < b < |bins| ==> bins[b] == Number(h, (e: DecodedEvent) => e.energy == b))
    case QShort =>
      && (bins == [] <==> Number(h, (e: DecodedEvent) => e.qshort != 0 || e.qlong != 0) == 0)
      && (bins != [] ==> |bins| == 32768 && forall b :: 0 <= b < |bins| ==>
            bins[b] == Number(h, (e: DecodedEvent) => (e.qshort != 0 || e.qlong != 0) && e.qshort == b))
    case QLong =>
      && (bins == [] <==> Number(h, (e: DecodedEvent) => e.qshort != 0 || e.qlong != 0) == 0)
      && (bins != [] ==> |bins| == 65536 && forall b :: 0 <= b < |bins| ==>
            bins[b] == Number(h, (e: DecodedEvent) => (e.qshort != 0 || e.qlong != 0) && e.qlong == b))
    case Psd =>
      && (bins == [] <==> Number(h, (e: DecodedEvent) => e.qlong > 0) == 0)
      && (bins != [] ==> |bins| == 524288 && forall c, y :: 0 <= c < 2048 && 0 <= y < 256 ==>
            PsdCell(bins, c, y) == Number(h, (e: DecodedEvent) => InCell(e, c, y)))
  }

  /** Row-major: column c, row y. */
  function PsdCell(bins: seq<nat>, c: nat, y: nat): nat
    requires |bins| == 524288 && c < 2048 && y < 256
  {
    bins[c * 256 + y]
  }

  lemma EnergyTells(bins: seq<nat>, h: seq<DecodedEvent>)
    requires SpectrumIs(Energy, bins, h)
    ensures Tells(Energy, bins, h)
  {
    hide CountIn, CountAll, Number;
    var any := (e: DecodedEvent) => e.energy != 0;
    ConcernedBy(Energy, h, any);
    if bins != [] {
      forall b | 0 < b < |bins|
        ensures bins[b] == Number(h, (e: DecodedEvent) => e.energy == b)
      {
        CountedBy(Energy, h, b, (e: DecodedEvent) => e.energy == b);
      }
    }
  }

  lemma QShortTells(bins: seq<nat>, h: seq<DecodedEvent>)
    requires SpectrumIs(QShort, bins, h)
    ensures Tells(QShort, bins, h)
  {
    hide CountIn, CountAll, Number;
    var any := (e: DecodedEvent) => e.qshort != 0 || e.qlong != 0;
    ConcernedBy(QShort, h, any);
    if bins != [] {
      forall b | 0 <= b < |bins|
        ensures bins[b] == Number(h, (e: DecodedEvent) => (e.qshort != 0 || e.qlong != 0) && e.qshort == b)
      {
        CountedBy(QShort, h, b, (e: DecodedEvent) => (e.qshort != 0 || e.qlong != 0) && e.qshort == b);
      }
    }
  }

  lemma QLongTells(bins: seq<nat>, h: seq<DecodedEvent>)
    requires SpectrumIs(QLong, bins, h)
    ensures Tells(QLong, bins, h)
  {
    hide CountIn, CountAll, Number;
    var any := (e: DecodedEvent) => e.qshort != 0 || e.qlong != 0;
    ConcernedBy(QLong, h, any);
    if bins != [] {
      forall b | 0 <= b < |bins|
        ensures bins[b] == Number(h, (e: DecodedEvent) => (e.qshort != 0 || e.qlong != 0) && e.qlong == b)
      {
        CountedBy(QLong, h, b, (e: DecodedEvent) => (e.qshort != 0 || e.qlong != 0) && e.qlong == b);
      }
    }
  }

  lemma PsdTells(bins: seq<nat>, h: seq<DecodedEvent>)
    requires SpectrumIs(Psd, bins, h) && AllFit(h)
    ensures Tells(Psd, bins, h)
  {
    hide CountIn, CountAll, Number, InCell, PsdRow, PsdColumn;
    var any := (e: DecodedEvent) => e.qlong > 0;
    ConcernedBy(Psd, h, any);
    if bins != [] {
      forall c, y | 0 <= c < 2048 && 0 <= y < 256
        ensures PsdCell(bins, c, y) == Number(h, (e: DecodedEvent) => InCell(e, c, y))
      {
        CellTells(h, c, y, (e: DecodedEvent) => InCell(e, c, y));
        assert bins[c * 256 + y] == CountIn(Psd, h, c * 256 + y);
      }
    }
  }

  lemma CellTells(h: seq<DecodedEvent>, c: nat, y: nat, p: DecodedEvent -> bool)
    requires AllFit(h) && c < 2048 && y < 256 && forall e :: p(e) <==> InCell(e, c, y)
    ensures CountIn(Psd, h, c * 256 + y) == Number(h, p)
  {
    hide InCell, FallsIn, Fits;
    forall i | 0 <= i < |h|
      ensures FallsIn(Psd, h[i], c * 256 + y) <==> p(h[i])
    {
      assert Fits(h[i]);
      CellIffInCell(h[i], c, y);
    }
    CountedBy(Psd, h, c * 256 + y, p);
  }

  /** Every spectrum that is kept tells it all. */
  lemma SpectrumTells(s: Spectrum, bins: seq<nat>, h: seq<DecodedEvent>)
    requires SpectrumIs(s, bins, h) && AllFit(h)
    ensures Tells(s, bins, h)
  {
    hide SpectrumIs, Tells, AllFit;
    match s
    case Energy => EnergyTells(bins, h);
    case QShort => QShortTells(bins, h);
    case QLong => QLongTells(bins, h);
    case Psd => PsdTells(bins, h);
  }

  lemma {:induction false} CountsAreNumbers(h: seq<DecodedEvent>)
    ensures CountsOf(h) == Counts(|h|, Number(h, (e: DecodedEvent) => e.pileup), Number(h, (e: DecodedEvent) => e.lost),
                                  Number(h, (e: DecodedEvent) => e.satu))
    decreases |h|
  {
    var p, l, s := (e: DecodedEvent) => e.pileup, (e: DecodedEvent) => e.lost, (e: DecodedEvent) => e.satu;
    CountsBy(h, p, l, s);
  }

  lemma {:induction false} CountsBy(h: seq<DecodedEvent>, p: DecodedEvent -> bool, l: DecodedEvent -> bool, s: DecodedEvent -> bool)
    requires forall e :: (p(e) <==> e.pileup) && (l(e) <==> e.lost) && (s(e) <==> e.satu)
    ensures CountsOf(h) == Counts(|h|, Number(h, p), Number(h, l), Number(h, s))
    decreases |h|
  {
    if h != [] {
      CountsBy(InitOf(h), p, l, s);
    }
  }

  /** `wave` is the trace of the last event that satisfies `p`, or empty if none does. */
  ghost predicate LastWaveWith(h: seq<DecodedEvent>, p: DecodedEvent -> bool, wave: seq<nat>) {
    || (wave == [] && forall i :: 0 <= i < |h| ==> !p(h[i]))
    || exists i :: 0 <= i < |h| && p(h[i]) && h[i].wave == wave && forall j :: i < j < |h| ==> !p(h[j])
  }

  lemma {:induction false} LatestBy(k: WaveKind, h: seq<DecodedEvent>, p: DecodedEvent -> bool)
    requires forall e :: p(e) <==> WaveCounts(k, e)
    ensures LastWaveWith(h, p, LatestWave(k, h))
    decreases |h|
  {
    hide WaveCounts;
    if h != [] {
      var n, init := |h| - 1, InitOf(h);
      if WaveCounts(k, h[n]) {
        assert p(h[n]) && h[n].wave == LatestWave(k, h);
      } else {
        LatestBy(k, init, p);
        if i :| 0 <= i < |init| && p(init[i]) && init[i].wave == LatestWave(k, init) && forall j :: i < j < |init| ==> !p(init[j]) {
          assert h[i] == init[i];
          assert forall j :: i < j < |init| ==> h[j] == init[j];
        } else {
          assert forall i :: 0 <= i < |init| ==> h[i] == init[i];
        }
      }
    }
  }

  /** The four traces kept: any, neither pile-up nor saturated, pile-up, saturated. */
  lemma LatestWaves(h: seq<DecodedEvent>)
    ensures LastWaveWith(h, (e: DecodedEvent) => e.wave != [], LatestWave(Any, h))
    ensures LastWaveWith(h, (e: DecodedEvent) => e.wave != [] && !e.pileup && !e.satu, LatestWave(Good, h))
    ensures LastWaveWith(h, (e: DecodedEvent) => e.wave != [] && e.pileup, LatestWave(Pileup, h))
    ensures LastWaveWith(h, (e: DecodedEvent) => e.wave != [] && e.satu, LatestWave(Saturated, h))
  {
    hide LastWaveWith, LatestWave;
    LatestBy(Any, h, (e: DecodedEvent) => e.wave != []);
    LatestBy(Good, h, (e: DecodedEvent) => e.wave != [] && !e.pileup && !e.satu);
    LatestBy(Pileup, h, (e: DecodedEvent) => e.wave != [] && e.pileup);
    LatestBy(Saturated, h, (e: DecodedEvent) => e.wave != [] && e.satu);
  }

  function NumberOf(xs: seq<int>, p: int -> bool): nat {
    if xs == [] then 0 else NumberOf(xs[..|xs| - 1], p) + (if p(xs[|xs| - 1]) then 1 else 0)
  }

  lemma {:induction false} GapsBy(axis: int -> int, gaps: seq<int>, bin: nat, p: int -> bool)
    requires forall g :: p(g) <==> Clamped(axis(g)) == bin
    ensures GapsIn(axis, gaps, bin) == NumberOf(gaps, p)
    decreases |gaps|
  {
    if gaps != [] {
      GapsBy(axis, gaps[..|gaps| - 1], bin, p);
    }
  }

  /** A gap counts in the bin that the axis names; beyond either end of the axis, in the last bin there. */
  lemma IntervalBins(axis: int -> int, gaps: seq<int>, b: nat)
    requires b < 1000
    ensures GapsIn(axis, gaps, b) ==
            if b == 0 then NumberOf(gaps, (g: int) => axis(g) <= 0)
            else if b == 999 then NumberOf(gaps, (g: int) => axis(g) >= 999)
            else NumberOf(gaps, (g: int) => axis(g) == b)
  {
    hide GapsIn, NumberOf;
    if b == 0 {
      GapsBy(axis, gaps, b, (g: int) => axis(g) <= 0);
    } else if b == 999 {
      GapsBy(axis, gaps, b, (g: int) => axis(g) >= 999);
    } else {
      GapsBy(axis, gaps, b, (g: int) => axis(g) == b);
    }
  }

  /** The first positive time. */
  lemma {:induction false} FirstTimeIsFirst(h: seq<DecodedEvent>)
    ensures FirstTime(h) == -1 ==> forall i :: 0 <= i < |h| ==> h[i].timePs <= 0
    ensures FirstTime(h) != -1 ==>
              exists i :: 0 <= i < |h| && h[i].timePs == FirstTime(h) > 0 && forall j :: 0 <= j < i ==> h[j].timePs <= 0
    decreases |h|
  {
    if h != [] {
      var init, n := InitOf(h), |h| - 1;
      FirstTimeIsFirst(init);
      assert forall i :: 0 <= i < n ==> h[i] == init[i];
      if FirstTime(init) != -1 {
        var i :| 0 <= i < |init| && init[i].timePs == FirstTime(init) > 0 && forall j :: 0 <= j < i ==> init[j].timePs <= 0;
        assert h[i].timePs == FirstTime(h);
      } else if FirstTime(h) != -1 {
        assert h[n].timePs == FirstTime(h);
      }
    }
  }

  // ----- the store -----

  function KeyOf(e: DecodedEvent): nat { PackKey(Key(e.board, e.channel)) }

  /** The events of one channel. */
  function OfKey(h: seq<DecodedEvent>, key: nat): seq<DecodedEvent> {
    if h == [] then [] else OfKey(InitOf(h), key) + (if KeyOf(LastOf(h)) == key then [LastOf(h)] else [])
  }

  lemma NextOfKey(h: seq<DecodedEvent>, e: DecodedEvent, key: nat)
    ensures OfKey(h + [e], key) == if KeyOf(e) == key then OfKey(h, key) + [e] else OfKey(h, key)
  {
    assert InitOf(h + [e]) == h && LastOf(h + [e]) == e;
  }

  /** The events of one channel are those with its board and channel number, no other. */
  lemma {:induction false} OfKeyNumber(h: seq<DecodedEvent>, board: nat, channel: nat, p: DecodedEvent -> bool, q: DecodedEvent -> bool)
    requires AllFit(h) && board < 0x1_0000 && channel < 0x1_0000
    requires forall e :: q(e) <==> e.board == board && e.channel == channel && p(e)
    ensures Number(OfKey(h, PackKey(Key(board, channel))), p) == Number(h, q)
    decreases |h|
  {
    hide PackKey, Fits;
    if h != [] {
      var init, e, key := InitOf(h), LastOf(h), PackKey(Key(board, channel));
      assert h == init + [e] && Fits(h[|h| - 1]);
      OfKeyNumber(init, board, channel, p, q);
      SameKeyIff(e, board, channel);
      NextOfKey(init, e, key);
      OneMoreCounted(OfKey(init, key), e, p);
    }
  }

  lemma OneMoreCounted(h: seq<DecodedEvent>, e: DecodedEvent, p: DecodedEvent -> bool)
    ensures Number(h + [e], p) == Number(h, p) + if p(e) then 1 else 0
  {
    assert InitOf(h + [e]) == h && LastOf(h + [e]) == e;
  }

  lemma SameKeyIff(e: DecodedEvent, board: nat, channel: nat)
    requires Fits(e) && board < 0x1_0000 && channel < 0x1_0000
    ensures KeyOf(e) == PackKey(Key(board, channel)) <==> e.board == board && e.channel == channel
  {
    hide PackKey;
    KeyNamesChannel(Key(e.board, e.channel));
    KeyNamesChannel(Key(board, channel));
  }

  lemma {:induction false} OfKeyFits(h: seq<DecodedEvent>, key: nat)
    requires AllFit(h)
    ensures AllFit(OfKey(h, key))
    decreases |h|
  {
    hide Fits, KeyOf;
    if h != [] {
      assert Fits(h[|h| - 1]);
      OfKeyFits(InitOf(h), key);
    }
  }

  class HistogramStore {
    const axis: int -> int
    var ch: map<nat, Channel>
    ghost var history: seq<DecodedEvent>

    /** Every channel tells its own part of the history; channels without events do not exist. */
    ghost predicate Valid()
      reads this
    {
      && AllFit(history)
      && (forall key :: key in ch <==> OfKey(history, key) != [])
      && (forall key :: key in ch ==> Agrees(axis, ch[key], OfKey(history, key)))
    }

    constructor (axis: int -> int)
      ensures Valid() && history == [] && this.axis == axis
    {
      this.axis := axis;
      ch, history := map[], [];
    }

    method Fill(e: DecodedEvent)
      requires Valid() && Fits(e)
      modifies this
      ensures Valid() && history == old(history) + [e]
    {
      hide Agrees, OfKey, KeyOf, Fits;
      assert AllFit(history + [e]);
      var key := KeyOf(e);
      var c := if key in ch then ch[key] else UNSEEN;
      ghost var h := OfKey(history, key);
      if key !in ch {
        UnseenAgrees(axis);
      }
      c := FillChannel(axis, c, h, e);
      ghost var was := history;
      ch := ch[key := c];
      history := history + [e];
      forall k
        ensures k in ch <==> OfKey(history, k) != []
        ensures k in ch ==> Agrees(axis, ch[k], OfKey(history, k))
      {
        NextOfKey(was, e, k);
      }
    }

    /** A snapshot of a spectrum: it is what the channel's events say, empty if there were none. */
    method Snapshot(s: Spectrum, board: nat, channel: nat) returns (bins: seq<nat>)
      requires Valid()
      ensures SpectrumIs(s, bins, OfKey(history, PackKey(Key(board, channel))))
      ensures Tells(s, bins, OfKey(history, PackKey(Key(board, channel))))
    {
      hide CountIn, OfKey, Tells, Fits;
      var key := PackKey(Key(board, channel));
      bins := if key in ch then SpectrumOf(ch[key], s) else [];
      OfKeyFits(history, key);
      SpectrumTells(s, bins, OfKey(history, key));
    }

    method Interval(board: nat, channel: nat) returns (bins: seq<nat>)
      requires Valid()
      ensures IntervalIs(axis, bins, Gaps(OfKey(history, PackKey(Key(board, channel)))))
    {
      hide GapsIn, OfKey, SpectrumIs;
      var key := PackKey(Key(board, channel));
      bins := if key in ch then ch[key].interval else [];
    }

    method Waveform(board: nat, channel: nat, kind: WaveKind) returns (wave: seq<nat>)
      requires Valid()
      ensures wave == LatestWave(kind, OfKey(history, PackKey(Key(board, channel))))
    {
      hide OfKey, SpectrumIs, IntervalIs;
      var key := PackKey(Key(board, channel));
      wave := if key in ch then WaveOf(ch[key], kind) else [];
    }

    method CountsOfChannel(board: nat, channel: nat) returns (counts: Counts)
      requires Valid()
      ensures counts == CountsOf(OfKey(history, PackKey(Key(board, channel))))
    {
      hide OfKey, SpectrumIs, IntervalIs;
      var key := PackKey(Key(board, channel));
      counts := if key in ch then ch[key].counts else NO_COUNTS;
    }

    /** The channels that have received an event. */
    method Channels() returns (keys: set<Key>)
      requires Valid()
      ensures forall board, channel :: board < 0x1_0000 && channel < 0x1_0000 ==>
                (Key(board, channel) in keys <==> OfKey(history, PackKey(Key(board, channel))) != [])
    {
      hide OfKey, Agrees;
      keys := set p | p in ch.Keys :: Key(p / 0x1_0000, p % 0x1_0000);
      forall board: nat, channel: nat | board < 0x1_0000 && channel < 0x1_0000
        ensures Key(board, channel) in keys <==> PackKey(Key(board, channel)) in ch
      {
        KeyNamesChannel(Key(board, channel));
      }
    }

    method Reset()
      modifies this
      ensures Valid() && history == []
    {
      ch := map[];
      history := [];
    }
  }

  // ----- what the histories mean -----

  function SumBelow(s: Spectrum, h: seq<DecodedEvent>, n: nat): nat {
    if n == 0 then 0 else SumBelow(s, h, n - 1) + CountIn(s, h, n - 1)
  }

  lemma {:induction false} SumBelowNext(s: Spectrum, h: seq<DecodedEvent>, e: DecodedEvent, n: nat)
    ensures SumBelow(s, h + [e], n) == SumBelow(s, h, n) + if Concerns(s, e) && BinOf(s, e) < n then 1 else 0
  {
    hide BinOf, Concerns;
    assert InitOf(h + [e]) == h && LastOf(h + [e]) == e;
    if n > 0 {
      SumBelowNext(s, h, e, n - 1);
    }
  }

  lemma {:induction false} SumBelowNone(s: Spectrum, n: nat)
    ensures SumBelow(s, [], n) == 0
  {
    if n > 0 {
      SumBelowNone(s, n - 1);
    }
  }

  /** How many events fall inside a spectrum. */
  function CountInside(s: Spectrum, h: seq<DecodedEvent>): nat {
    if h == [] then 0
    else CountInside(s, InitOf(h)) + (if Concerns(s, LastOf(h)) && BinOf(s, LastOf(h)) < BinsOf(s) then 1 else 0)
  }

  /** No event is lost from a spectrum: its bins add up to the number of events that fall inside, which of
      events a decoder delivered are all that concern it. */
  lemma {:induction false} SpectrumSums(s: Spectrum, h: seq<DecodedEvent>)
    requires AllFit(h)
    ensures SumBelow(s, h, BinsOf(s)) == CountInside(s, h)
    ensures (forall i :: 0 <= i < |h| ==> DecodedInRange(h[i])) ==> CountInside(s, h) == CountAll(s, h)
    decreases |h|
  {
    hide SumBelow, CountIn, BinOf, Concerns, DecodedInRange, BinsOf, Fits;
    if h == [] {
      SumBelowNone(s, BinsOf(s));
    } else {
      var init, e := InitOf(h), LastOf(h);
      assert h == init + [e] && Fits(h[|h| - 1]);
      SpectrumSums(s, init);
      SumBelowNext(s, init, e, BinsOf(s));
      if Concerns(s, e) {
        BinsInBounds(s, e);
      }
    }
  }

  /** The latest time is the maximum of the positive times, and one of them. */
  lemma {:induction false} LastTimeIsMax(h: seq<DecodedEvent>)
    ensures forall i :: 0 <= i < |h| && h[i].timePs > 0 ==> h[i].timePs <= LastTime(h)
    ensures LastTime(h) != -1 ==> exists i :: 0 <= i < |h| && h[i].timePs == LastTime(h)
    decreases |h|
  {
    if h != [] {
      LastTimeIsMax(InitOf(h));
      if LastTime(h) == LastTime(InitOf(h)) {
        if LastTime(h) != -1 {
          var i :| 0 <= i < |InitOf(h)| && InitOf(h)[i].timePs == LastTime(h);
          assert h[i].timePs == LastTime(h);
        }
      } else {
        assert h[|h| - 1].timePs == LastTime(h);
      }
      forall i | 0 <= i < |h| && h[i].timePs > 0
        ensures h[i].timePs <= LastTime(h)
      {
        if i < |h| - 1 {
          assert h[i] == InitOf(h)[i];
        }
      }
    }
  }

  /** The gaps are those between successive running maxima: one fewer than maxima, all positive, and they
      add up to the time from the first to the latest. */
  lemma {:induction false} GapsTelescope(h: seq<DecodedEvent>)
    ensures |Gaps(h)| == if Maxima(h) == 0 then 0 else Maxima(h) - 1
    ensures LastTime(h) == -1 <==> Maxima(h) == 0
    ensures LastTime(h) == -1 <==> FirstTime(h) == -1
    ensures Sum(Gaps(h)) == LastTime(h) - FirstTime(h)
    ensures forall i :: 0 <= i < |Gaps(h)| ==> Gaps(h)[i] > 0
    decreases |h|
  {
    if h != [] {
      GapsTelescope(InitOf(h));
      var t := LastTime(InitOf(h));
      if t >= 0 && Advances(InitOf(h), LastOf(h)) {
        SumNext(Gaps(InitOf(h)), LastOf(h).timePs - t);
      } else {
        assert Gaps(h) == Gaps(InitOf(h));
      }
    }
  }

  function IntervalBelow(axis: int -> int, gaps: seq<int>, n: nat): nat {
    if n == 0 then 0 else IntervalBelow(axis, gaps, n - 1) + GapsIn(axis, gaps, n - 1)
  }

  lemma {:induction false} IntervalBelowNext(axis: int -> int, gaps: seq<int>, gap: int, n: nat)
    ensures IntervalBelow(axis, gaps + [gap], n) == IntervalBelow(axis, gaps, n) + if Clamped(axis(gap)) < n then 1 else 0
    ensures IntervalBelow(axis, [], n) == 0
  {
    assert (gaps + [gap])[..|gaps|] == gaps;
    if n > 0 {
      IntervalBelowNext(axis, gaps, gap, n - 1);
    }
  }

  /** Whatever the axis, the bins of the interval histogram add up to the number of gaps. */
  lemma {:induction false} IntervalSums(axis: int -> int, gaps: seq<int>)
    ensures IntervalBelow(axis, gaps, INTERVAL_BINS) == |gaps|
    decreases |gaps|
  {
    hide IntervalBelow, Clamped;
    if gaps == [] {
      IntervalBelowNext(axis, gaps, 0, INTERVAL_BINS);
    } else {
      var init, last := gaps[..|gaps| - 1], gaps[|gaps| - 1];
      assert gaps == init + [last];
      IntervalSums(axis, init);
      IntervalBelowNext(axis, init, last, INTERVAL_BINS);
    }
  }

  function EventsBelow(h: seq<DecodedEvent>, n: nat): nat {
    if n == 0 then 0 else EventsBelow(h, n - 1) + CountsOf(OfKey(h, n - 1)).events
  }

  lemma NextCount(h: seq<DecodedEvent>, e: DecodedEvent)
    ensures CountsOf(h + [e]).events == CountsOf(h).events + 1
  {
    assert InitOf(h + [e]) == h;
  }

  lemma {:induction false} EventsBelowNext(h: seq<DecodedEvent>, e: DecodedEvent, n: nat)
    ensures EventsBelow(h + [e], n) == EventsBelow(h, n) + if KeyOf(e) < n then 1 else 0
  {
    hide OfKey, KeyOf, CountsOf;
    if n > 0 {
      EventsBelowNext(h, e, n - 1);
      NextOfKey(h, e, n - 1);
      NextCount(OfKey(h, n - 1), e);
    }
  }

  lemma {:induction false} EventsBelowNone(n: nat)
    ensures EventsBelow([], n) == 0
  {
    if n > 0 {
      EventsBelowNone(n - 1);
    }
  }

  const ALL_KEYS: nat := 0x1_0000_0000   // 65536 boards of 65536 channel numbers

  /** Every event is counted in exactly one channel: the channels' event counts add up to the events. */
  lemma {:induction false} ChannelsAddUp(h: seq<DecodedEvent>)
    requires AllFit(h)
    ensures EventsBelow(h, ALL_KEYS) == |h|
    decreases |h|
  {
    hide EventsBelow;
    if h == [] {
      EventsBelowNone(ALL_KEYS);
    } else {
      var init, e := InitOf(h), LastOf(h);
      assert h == init + [e];
      assert Fits(h[|h| - 1]);
      ChannelsAddUp(init);
      EventsBelowNext(init, e, ALL_KEYS);
    }
  }
}
