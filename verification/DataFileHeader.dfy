/** The header of a data file: six words and one packed word per board. */
module DataFileHeaders {
  import opened Words
  import opened Arithmetic

  datatype BoardDef = BoardDef(nsPerSample: Byte, nsPerTimetag: Byte, dppVersion: Byte, channels: Byte, boardRegId: Byte)

  datatype DppType = NotDpp | Std | PHA | PSD | CI | ZLE | QDC | DAW

  /** What a header needs to know of a board. */
  datatype BoardInfo = BoardInfo(dppType: DppType, nsPerSample: Byte, nsPerTimetag: Byte, channels: Word, boardRegId: Word)

  const KEY_FRAME: Word := 0xFA02_01A0
  const HEADER_WORDS: nat := 6

  function DppVersion(t: DppType): (v: Byte)
    ensures v < 2 && (v == 1 <==> t.PSD?)
  {
    match t
    case PSD => 1
    case _ => 0
  }

  function Described(bi: BoardInfo): BoardDef {
    BoardDef(bi.nsPerSample, bi.nsPerTimetag, DppVersion(bi.dppType), bi.channels % 0x100, bi.boardRegId % 0x100)
  }

  /** Bits 0-5, 6-11, 12-15, 16-23 and 24-31; what does not fit is cut off. */
  function PackBoardDef(b: BoardDef): Word {
    b.nsPerSample % 0x40 + 0x40 * (b.nsPerTimetag % 0x40) + 0x1000 * (b.dppVersion % 0x10)
    + 0x1_0000 * b.channels + 0x100_0000 * b.boardRegId
  }

  /** How a reader takes the word apart. */
  function UnpackBoardDef(w: Word): BoardDef {
    FieldWidths(w);
    BoardDef(ExtractBits(w, BITS_0_5), ExtractBits(w, BITS_6_11), ExtractBits(w, BITS_12_15),
             ExtractBits(w, BITS_16_23), ExtractBits(w, BITS_24_31))
  }

  lemma FieldWidths(w: nat)
    ensures ExtractBits(w, BITS_0_5) == w % 0x40
    ensures ExtractBits(w, BITS_6_11) == w / 0x40 % 0x40
    ensures ExtractBits(w, BITS_12_15) == w / 0x1000 % 0x10
    ensures ExtractBits(w, BITS_16_23) == w / 0x1_0000 % 0x100
    ensures ExtractBits(w, BITS_24_31) == w / 0x100_0000 % 0x100
  {
    PowerTable();
    ShiftsAreProducts(w, 6);
    ShiftsAreProducts(w, 12);
    ShiftsAreProducts(w, 16);
    ShiftsAreProducts(w, 24);
    ShiftsAreProducts(Shr(w, 6), 6);
    ShiftsAreProducts(Shr(w, 12), 4);
    ShiftsAreProducts(Shr(w, 16), 8);
    ShiftsAreProducts(Shr(w, 24), 8);
  }

  predicate Fits(b: BoardDef) { b.nsPerSample < 0x40 && b.nsPerTimetag < 0x40 && b.dppVersion < 0x10 }

  /** A board word is read back exactly when its first three fields fit their bits. */
  lemma UnpackInvertsPackIff(b: BoardDef)
    ensures UnpackBoardDef(PackBoardDef(b)) == b <==> Fits(b)
    ensures UnpackBoardDef(PackBoardDef(b)) ==
            b.(nsPerSample := b.nsPerSample % 0x40, nsPerTimetag := b.nsPerTimetag % 0x40, dppVersion := b.dppVersion % 0x10)
  {
    hide ExtractBits, Pow2;
    PowerTable();
    var w := PackBoardDef(b);
    var s, t, d, c, i := b.nsPerSample % 0x40, b.nsPerTimetag % 0x40, b.dppVersion % 0x10, b.channels, b.boardRegId;
    FieldRead(w, BITS_0_5, 1, 0x40, 0, s, t + 0x40 * d + 0x400 * c + 0x4_0000 * i);
    FieldRead(w, BITS_6_11, 0x40, 0x40, s, t, d + 0x10 * c + 0x1000 * i);
    FieldRead(w, BITS_12_15, 0x1000, 0x10, s + 0x40 * t, d, c + 0x100 * i);
    FieldRead(w, BITS_16_23, 0x1_0000, 0x100, s + 0x40 * t + 0x1000 * d, c, i);
    FieldRead(w, BITS_24_31, 0x100_0000, 0x100, s + 0x40 * t + 0x1000 * d + 0x1_0000 * c, i, 0);
  }

  /** No bit of the word is unused: every word is the packing of the fields it is read as. */
  lemma PackInvertsUnpack(w: Word)
    ensures PackBoardDef(UnpackBoardDef(w)) == w
  {
    hide ExtractBits;
    FieldWidths(w);
    Digits(w);
  }

  /** The five digits of a word. */
  lemma Digits(w: Word)
    ensures w == w % 0x40 + 0x40 * (w / 0x40 % 0x40) + 0x1000 * (w / 0x1000 % 0x10)
                 + 0x1_0000 * (w / 0x1_0000 % 0x100) + 0x100_0000 * (w / 0x100_0000 % 0x100)
  {
    var a, b, c, d := w / 0x40, w / 0x1000, w / 0x1_0000, w / 0x100_0000;
    assert w == w % 0x40 + 0x40 * a;
    assert a / 0x40 == b && a == a % 0x40 + 0x40 * b;
    assert b / 0x10 == c && b == b % 0x10 + 0x10 * c;
    assert c / 0x100 == d && c == c % 0x100 + 0x100 * d;
    assert d % 0x100 == d;
  }

  /** A board definition tells all there is to know of its board. */
  predicate Describes(d: BoardDef, bi: BoardInfo) {
    && d.nsPerSample == bi.nsPerSample && d.nsPerTimetag == bi.nsPerTimetag
    && d.channels == bi.channels && d.boardRegId == bi.boardRegId
    && d.dppVersion < 2 && (d.dppVersion == 1 <==> bi.dppType.PSD?)
  }

  /** A word describes its board in full exactly when the board's numbers are small enough. */
  lemma DescribesIff(bi: BoardInfo)
    ensures Describes(UnpackBoardDef(PackBoardDef(Described(bi))), bi) <==>
            bi.nsPerSample < 0x40 && bi.nsPerTimetag < 0x40 && bi.channels < 0x100 && bi.boardRegId < 0x100
  {
    hide PackBoardDef, UnpackBoardDef;
    UnpackInvertsPackIff(Described(bi));
  }

  /** Sampling period, time tag and firmware always survive; channel count and register id survive up to
      eight bits; and the board word made of the result describes the board in full, firmware included,
      exactly when all four numbers fit their bits. */
  method BoardDefFrom(bi: BoardInfo) returns (d: BoardDef)
    ensures d == Described(bi)
    ensures d.nsPerSample == bi.nsPerSample && d.nsPerTimetag == bi.nsPerTimetag && (d.dppVersion == 1 <==> bi.dppType.PSD?)
    ensures (d.channels == bi.channels <==> bi.channels < 0x100) && (d.boardRegId == bi.boardRegId <==> bi.boardRegId < 0x100)
    ensures Describes(UnpackBoardDef(PackBoardDef(d)), bi) <==>
            bi.nsPerSample < 0x40 && bi.nsPerTimetag < 0x40 && bi.channels < 0x100 && bi.boardRegId < 0x100
  {
    hide PackBoardDef, UnpackBoardDef;
    d := BoardDef(0, 0, 0, 0, 0);
    d := d.(nsPerSample := bi.nsPerSample);
    d := d.(nsPerTimetag := bi.nsPerTimetag);
    d := d.(dppVersion := DppVersion(bi.dppType));
    d := d.(channels := bi.channels % 0x100);
    d := d.(boardRegId := bi.boardRegId % 0x100);
    DescribesIff(bi);
  }

  // ----- the whole header -----

  function PackAll(boards: seq<BoardDef>): seq<Word> {
    seq(|boards|, i requires 0 <= i < |boards| => PackBoardDef(boards[i]))
  }

  function HeaderOf(boards: seq<BoardDef>, epoch: Word, ts0: Word, ts1: Word): seq<Word> {
    var nb := |boards| % 0x1_0000_0000;
    [(6 + nb) % 0x1_0000_0000, KEY_FRAME, nb, ts0, ts1, epoch] + PackAll(boards)
  }

  /** The header word for word, in the numbers of the format. */
  predicate HeaderWords(h: seq<Word>, boards: seq<BoardDef>, epoch: Word, ts0: Word, ts1: Word) {
    && |h| == 6 + |boards|
    && h[0] == (6 + |boards|) % 0x1_0000_0000 && h[1] == 0xFA02_01A0 && h[2] == |boards| % 0x1_0000_0000
    && h[3] == ts0 && h[4] == ts1 && h[5] == epoch
    && forall i :: 0 <= i < |boards| ==> BoardWord(h[6 + i], boards[i])
  }

  /** Where the five fields stand in a board word. */
  predicate BoardWord(w: Word, b: BoardDef) {
    && w % 0x40 == b.nsPerSample % 0x40
    && w / 0x40 % 0x40 == b.nsPerTimetag % 0x40
    && w / 0x1000 % 0x10 == b.dppVersion % 0x10
    && w / 0x1_0000 % 0x100 == b.channels
    && w / 0x100_0000 == b.boardRegId
  }

  lemma PackedWord(b: BoardDef)
    ensures BoardWord(PackBoardDef(b), b)
  {
    hide ExtractBits;
    UnpackInvertsPackIff(b);
    FieldWidths(PackBoardDef(b));
    hide PackBoardDef;
    TopByte(PackBoardDef(b));
  }

  lemma TopByte(w: Word)
    ensures w / 0x100_0000 % 0x100 == w / 0x100_0000
  {
  }

  lemma HeaderByWords(boards: seq<BoardDef>, epoch: Word, ts0: Word, ts1: Word)
    ensures HeaderWords(HeaderOf(boards, epoch, ts0, ts1), boards, epoch, ts0, ts1)
  {
    hide BoardWord, PackBoardDef;
    var h := HeaderOf(boards, epoch, ts0, ts1);
    forall i | 0 <= i < |boards|
      ensures BoardWord(h[6 + i], boards[i])
    {
      PackedWord(boards[i]);
      assert h[6 + i] == PackAll(boards)[i];
    }
  }

  method BuildHeader(boards: seq<BoardDef>, epochStartTime: Word, ts0: Word, ts1: Word) returns (h: seq<Word>)
    ensures h == HeaderOf(boards, epochStartTime, ts0, ts1)
    ensures HeaderWords(h, boards, epochStartTime, ts0, ts1)
  {
    hide HeaderWords, PackBoardDef;
    HeaderByWords(boards, epochStartTime, ts0, ts1);
    var nb := |boards| % 0x1_0000_0000;
    h := [];
    h := h + [(6 + nb) % 0x1_0000_0000];
    h := h + [KEY_FRAME];
    h := h + [nb];
    h := h + [ts0];
    h := h + [ts1];
    h := h + [epochStartTime];
    ghost var start := h;
    for i := 0 to |boards|
      invariant h == start + PackAll(boards)[..i]
    {
      h := h + [PackBoardDef(boards[i])];
      assert PackAll(boards)[..i + 1] == PackAll(boards)[..i] + [PackAll(boards)[i]];
    }
    assert PackAll(boards)[..|boards|] == PackAll(boards);
  }

  datatype FileStart = Headed(boards: seq<BoardDef>, epoch: Word, payload: seq<Word>) | Continued(payload: seq<Word>)

  /** How a file is opened again: its first word tells a header from a board aggregate. */
  function ReadStart(w: seq<Word>): FileStart {
    if |w| >= HEADER_WORDS && w[1] == KEY_FRAME && w[0] as int == HEADER_WORDS + w[2] as int && w[0] <= |w| then
      Headed(seq(w[2], i requires 0 <= i < w[2] => UnpackBoardDef(w[HEADER_WORDS + i])), w[5], w[w[0]..])
    else
      Continued(w)
  }

  /** The header is self-delimiting: of a file that starts with one, the board table, the start time and
      the payload are all recovered. */
  lemma HeaderIsReadBack(boards: seq<BoardDef>, epoch: Word, payload: seq<Word>)
    requires |boards| < 0xFFFF_FFF0 && forall i :: 0 <= i < |boards| ==> Fits(boards[i])
    ensures ReadStart(HeaderOf(boards, epoch, 0, 0) + payload) == Headed(boards, epoch, payload)
  {
    hide PackBoardDef, UnpackBoardDef, Fits;
    var w := HeaderOf(boards, epoch, 0, 0) + payload;
    forall i | 0 <= i < |boards|
      ensures UnpackBoardDef(w[6 + i]) == boards[i]
    {
      UnpackInvertsPackIff(boards[i]);
      assert w[6 + i] == PackBoardDef(boards[i]);
    }
    assert w[w[0]..] == payload;
  }
}
