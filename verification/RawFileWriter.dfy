/** The file writer: whole blocks, one after the other, over as few part files as the size limit allows. */
module RawFileWriters {
  import opened Words
  import opened BlockQueues

  /** What is written in one piece: the header or a block. */
  type Item = i: seq<Byte> | i != [] witness [0]

  function Size(items: seq<Item>): nat {
    if items == [] then 0 else |items[0]| + Size(items[1..])
  }

  function Flatten(items: seq<Item>): seq<Byte> {
    if items == [] then [] else items[0] + Flatten(items[1..])
  }

  /** The items of all parts, in order. */
  function Items(parts: seq<seq<Item>>): seq<Item> {
    if parts == [] then [] else parts[0] + Items(parts[1..])
  }

  /** The rule for the next item: a new part when it would push a non-empty one past the limit. */
  predicate Rotates(limit: nat, part: seq<Item>, item: Item) {
    limit != 0 && Size(part) + |item| > limit && Size(part) > 0
  }

  function Last<T>(s: seq<T>): T
    requires s != []
  {
    s[|s| - 1]
  }

  function Init<T>(s: seq<T>): seq<T>
    requires s != []
  {
    s[..|s| - 1]
  }

  function Place(limit: nat, parts: seq<seq<Item>>, item: Item): (parts': seq<seq<Item>>)
    requires parts != []
    ensures parts' != []
  {
    if Rotates(limit, Last(parts), item) then parts + [[item]] else Init(parts) + [Last(parts) + [item]]
  }

  /** The parts after a whole run. The first file is opened before anything is written. */
  function Parts(limit: nat, items: seq<Item>): (parts: seq<seq<Item>>)
    ensures parts != []
  {
    if items == [] then [[]] else Place(limit, Parts(limit, Init(items)), Last(items))
  }

  // ----- lemmas on sizes and contents -----

  lemma {:induction false} SizeJoin(a: seq<Item>, b: seq<Item>)
    ensures Size(a + b) == Size(a) + Size(b)
    ensures Flatten(a + b) == Flatten(a) + Flatten(b)
    ensures |Flatten(a)| == Size(a) >= |a|
    decreases |a|
  {
    if a == [] {
      assert a + b == b;
    } else {
      assert (a + b)[1..] == a[1..] + b;
      SizeJoin(a[1..], b);
    }
  }

  lemma OneItem(a: seq<Item>, i: Item)
    ensures Size(a + [i]) == Size(a) + |i|
    ensures Flatten(a + [i]) == Flatten(a) + i
  {
    SizeJoin(a, [i]);
    assert [i][1..] == [] && i + [] == i;
  }

  lemma {:induction false} ItemsJoin(a: seq<seq<Item>>, b: seq<seq<Item>>)
    ensures Items(a + b) == Items(a) + Items(b)
    decreases |a|
  {
    if a == [] {
      assert a + b == b;
    } else {
      assert (a + b)[1..] == a[1..] + b;
      ItemsJoin(a[1..], b);
    }
  }

  lemma ItemsLast(parts: seq<seq<Item>>)
    requires parts != []
    ensures Items(parts) == Items(Init(parts)) + Last(parts)
  {
    assert parts == Init(parts) + [Last(parts)];
    ItemsJoin(Init(parts), [Last(parts)]);
    assert Items([Last(parts)]) == Last(parts) + Items([]);
  }

  lemma PlaceAdds(limit: nat, parts: seq<seq<Item>>, item: Item)
    requires parts != []
    ensures Items(Place(limit, parts, item)) == Items(parts) + [item]
  {
    hide Items;
    ItemsLast(parts);
    ItemsLast(Place(limit, parts, item));
    if Rotates(limit, Last(parts), item) {
      assert Init(parts + [[item]]) == parts;
    } else {
      assert Init(Init(parts) + [Last(parts) + [item]]) == Init(parts);
    }
  }

  /** Within the limit, or holding a single item. */
  predicate Allowed(limit: nat, part: seq<Item>) {
    limit == 0 || Size(part) <= limit || |part| <= 1
  }

  predicate AllAllowed(limit: nat, parts: seq<seq<Item>>) {
    forall k :: 0 <= k < |parts| ==> Allowed(limit, parts[k])
  }

  /** Nothing is lost, reordered or split: the items of the parts are those written, in order; and every
      part is within the limit unless it holds a single item. Without a limit there is one part. */
  lemma {:induction false} PartsHoldItems(limit: nat, items: seq<Item>)
    ensures Items(Parts(limit, items)) == items
    ensures AllAllowed(limit, Parts(limit, items))
    ensures limit == 0 ==> |Parts(limit, items)| == 1
    decreases |items|
  {
    hide Size, Items, Allowed, Place;
    if items == [] {
      NothingInEmptyPart([[]]);
      EmptyPart([]);
      FitsAlone(limit, []);
    } else {
      PartsHoldItems(limit, Init(items));
      PlaceAdds(limit, Parts(limit, Init(items)), Last(items));
      PlaceIsAllowed(limit, Parts(limit, Init(items)), Last(items));
      assert Init(items) + [Last(items)] == items;
    }
  }

  lemma FitsAlone(limit: nat, part: seq<Item>)
    requires |part| <= 1
    ensures Allowed(limit, part)
  {
  }

  lemma PlaceIsAllowed(limit: nat, parts: seq<seq<Item>>, item: Item)
    requires parts != [] && AllAllowed(limit, parts)
    ensures AllAllowed(limit, Place(limit, parts, item))
    ensures limit == 0 ==> |Place(limit, parts, item)| == |parts|
  {
    hide Size;
    OneItem(Last(parts), item);
    EmptyPart(Last(parts));
  }

  lemma EmptyPart(part: seq<Item>)
    ensures Size(part) == 0 <==> part == []
  {
    SizeJoin(part, []);
  }

  // ----- no split does with fewer files -----

  /** Two splits compared: fewer parts, or as many with no more in the last one. */
  predicate Ahead(a: seq<seq<Item>>, b: seq<seq<Item>>) {
    a != [] && b != [] && (|a| < |b| || (|a| == |b| && |Last(a)| <= |Last(b)|))
  }

  /** Both last parts end the same run, so the shorter is the end of the longer. */
  lemma ShorterIsSmaller(xs: seq<Item>, a: seq<seq<Item>>, b: seq<seq<Item>>)
    requires a != [] && b != [] && Items(a) == xs == Items(b) && |Last(a)| <= |Last(b)|
    ensures Size(Last(a)) <= Size(Last(b))
  {
    hide Items, Size;
    ItemsLast(a);
    ItemsLast(b);
    var n := |Last(b)| - |Last(a)|;
    assert Last(b) == xs[|xs| - |Last(b)|..] && Last(a) == xs[|xs| - |Last(a)|..];
    assert Last(b) == Last(b)[..n] + Last(a);
    SizeJoin(Last(b)[..n], Last(a));
  }

  lemma PlaceStaysAhead(limit: nat, parts: seq<seq<Item>>, other: seq<seq<Item>>, item: Item)
    requires Ahead(parts, other) && Items(parts) == Items(other)
    requires Allowed(limit, Last(other) + [item])
    ensures Ahead(Place(limit, parts, item), Init(other) + [Last(other) + [item]])
  {
    hide Items;
    if |parts| == |other| && Rotates(limit, Last(parts), item) {
      ShorterIsSmaller(Items(parts), parts, other);
      OneItem(Last(other), item);
      assert false;
    }
  }

  /** No other in-order split into whole items that keeps to the same rule, the first file included,
      uses fewer files; and none with as many leaves more room in the last. */
  lemma {:induction false} NoSplitUsesFewer(limit: nat, items: seq<Item>, other: seq<seq<Item>>)
    requires other != [] && Items(other) == items && AllAllowed(limit, other)
    ensures Ahead(Parts(limit, items), other)
    decreases |other| + |items|
  {
    hide Size, Items, Allowed, Ahead, Place;
    ItemsLast(other);
    if Last(other) == [] {
      if |other| == 1 {
        NothingInEmptyPart(other);
        SameIsAhead(other);
      } else {
        assert Items(Init(other)) == items;
        NoSplitUsesFewer(limit, items, Init(other));
        OneMorePart(Parts(limit, items), other);
      }
    } else {
      var item, shorter := Last(items), Init(other) + [Init(Last(other))];
      assert Last(other) == Init(Last(other)) + [item];
      ItemsLast(shorter);
      assert Init(shorter) == Init(other);
      assert Items(shorter) == Init(items);
      ShorterIsAllowed(limit, Init(Last(other)), item);
      NoSplitUsesFewer(limit, Init(items), shorter);
      PartsHoldItems(limit, Init(items));
      PlaceStaysAhead(limit, Parts(limit, Init(items)), shorter, item);
      assert Init(shorter) + [Last(shorter) + [item]] == other;
    }
  }

  lemma SameIsAhead(a: seq<seq<Item>>)
    requires |a| == 1 && Last(a) == []
    ensures Ahead([[]], a)
  {
  }

  lemma OneMorePart(a: seq<seq<Item>>, b: seq<seq<Item>>)
    requires |b| > 1 && Ahead(a, Init(b))
    ensures Ahead(a, b)
  {
  }

  lemma NothingInEmptyPart(other: seq<seq<Item>>)
    requires |other| == 1 && Last(other) == []
    ensures Items(other) == []
  {
    assert Items(other) == other[0] + Items(other[1..]);
  }

  lemma ShorterIsAllowed(limit: nat, part: seq<Item>, item: Item)
    requires Allowed(limit, part + [item])
    ensures Allowed(limit, part)
  {
    OneItem(part, item);
  }

  // ----- the writer -----

  class RawFileWriter {
    const maxFileBytes: nat
    const header: seq<Byte>         // empty when no header is to be written
    var disk: seq<seq<Byte>>        // the part files of the run
    var cycle: int
    var fileBytes: nat
    var totalBytes: nat
    var totalBuffers: nat
    var headerWritten: bool
    var closed: bool
    ghost var parts: seq<seq<Item>>

    ghost predicate Valid()
      reads this
    {
      && (!closed ==> parts != [])
      && |disk| == |parts| && (forall k :: 0 <= k < |parts| ==> disk[k] == Flatten(parts[k]))
      && (parts != [] ==> cycle == |parts| - 1 && fileBytes == Size(Last(parts)))
    }

    constructor (maxFileBytes: nat, header: seq<Byte>)
      ensures Valid() && closed && parts == []
      ensures this.maxFileBytes == maxFileBytes && this.header == header
    {
      this.maxFileBytes, this.header := maxFileBytes, header;
      disk, cycle, fileBytes, totalBytes, totalBuffers, headerWritten, closed := [], 0, 0, 0, 0, false, true;
      parts := [];
    }

    /** The items a freshly opened run consists of. */
    ghost function Opening(): seq<Item> { if header == [] then [] else [header] }

    method Open() returns (ok: bool)
      requires Valid() && parts == []
      modifies this
      ensures ok && Valid() && !closed
      ensures parts == Parts(maxFileBytes, Opening()) && totalBytes == 0 && totalBuffers == 0
      ensures parts == (if header == [] then [[]] else [[header]]) && headerWritten == (header != [])
    {
      cycle, totalBytes, totalBuffers, headerWritten := 0, 0, 0, false;
      assert Parts(maxFileBytes, []) == [[]];
      ok := OpenCycle();
      if header != [] {
        Append(header);
        headerWritten := true;
        FirstPart(maxFileBytes, header);
      }
    }

    /** A further, empty part file. */
    method OpenCycle() returns (ok: bool)
      requires |disk| == |parts| == cycle && (forall k :: 0 <= k < |parts| ==> disk[k] == Flatten(parts[k]))
      modifies `disk, `fileBytes, `closed, `parts
      ensures ok && Valid() && !closed && parts == old(parts) + [[]]
    {
      disk := disk + [[]];
      parts := parts + [[]];
      fileBytes, closed := 0, false;
      return true;
    }

    /** At the end of the open file. */
    method Append(data: seq<Byte>)
      requires Valid() && !closed && data != []
      modifies `disk, `fileBytes, `parts
      ensures Valid() && parts == Init(old(parts)) + [Last(old(parts)) + [data]]
    {
      OneItem(Last(parts), data);
      disk := Init(disk) + [Last(disk) + data];
      parts := Init(parts) + [Last(parts) + [data]];
      fileBytes := fileBytes + |data|;
    }

    /** Refuses after the close; an empty buffer is accepted and leaves no trace. */
    method Write(data: seq<Byte>) returns (ok: bool)
      requires Valid()
      modifies this
      ensures Valid() && closed == old(closed) && ok == !closed
      ensures parts == if old(closed) || data == [] then old(parts) else Place(maxFileBytes, old(parts), data)
      ensures totalBytes == old(totalBytes) + if old(closed) then 0 else |data|
      ensures totalBuffers == old(totalBuffers) + if old(closed) || data == [] then 0 else 1
      ensures parts != [] ==> cycle == |parts| - 1
    {
      if closed {
        return false;
      }
      if data == [] {
        return true;
      }
      if maxFileBytes != 0 && fileBytes + |data| > maxFileBytes && fileBytes > 0 {
        cycle := cycle + 1;
        ok := OpenCycle();
        assert Init(parts) == old(parts) && Last(parts) + [data] == [data];
      }
      Append(data);
      totalBytes := totalBytes + |data|;
      totalBuffers := totalBuffers + 1;
      return true;
    }

    method Close()
      requires Valid()
      modifies `closed
      ensures Valid() && closed
    {
      if closed {
        return;
      }
      closed := true;
    }
  }

  lemma FirstPart(limit: nat, header: Item)
    ensures Parts(limit, [header]) == [[header]]
  {
    var none: seq<Item>, first: seq<seq<Item>> := [], [[]];
    var items: seq<Item> := [header];
    assert Init(items) == none && Last(items) == header;
    assert Parts(limit, none) == first;
    assert Parts(limit, items) == Place(limit, first, header);
    assert !Rotates(limit, Last(first), header);
    assert Init(first) == [] && Last(first) + [header] == items;
    assert Init(first) + [items] == [items];
  }

  /** A run on file: opened, every block written in turn, closed. Its bytes, part after part, are the
      header and the blocks in order. */
  method WriteRun(w: RawFileWriter, blocks: seq<Block>)
    requires w.Valid() && w.parts == []
    requires forall i :: 0 <= i < |blocks| ==> blocks[i].data != []
    modifies w
    ensures w.Valid() && w.closed
    ensures w.parts == Parts(w.maxFileBytes, w.Opening() + DataOf(blocks))
    ensures Items(w.parts) == (if w.header == [] then [] else [w.header]) + DataOf(blocks)
    ensures w.totalBytes == Bytes(blocks) && w.totalBuffers == |blocks|
  {
    hide Parts, Place, Flatten, Size, Bytes, DataOf, Items, Allowed;
    var ok := w.Open();
    NoItems(w.Opening(), blocks);
    for i := 0 to |blocks|
      invariant w.Valid() && !w.closed
      invariant w.parts == Parts(w.maxFileBytes, w.Opening() + DataOf(blocks[..i]))
      invariant w.totalBytes == Bytes(blocks[..i]) && w.totalBuffers == i
    {
      ok := w.Write(blocks[i].data);
      NextItem(w.maxFileBytes, w.Opening(), blocks, i);
    }
    assert blocks[..|blocks|] == blocks;
    PartsHoldItems(w.maxFileBytes, w.Opening() + DataOf(blocks));
    w.Close();
  }

  function DataOf(blocks: seq<Block>): (items: seq<Item>)
    requires forall i :: 0 <= i < |blocks| ==> blocks[i].data != []
    ensures |items| == |blocks| && forall i :: 0 <= i < |blocks| ==> items[i] == blocks[i].data
  {
    seq(|blocks|, i requires 0 <= i < |blocks| => blocks[i].data)
  }

  lemma NoItems(opening: seq<Item>, blocks: seq<Block>)
    ensures opening + DataOf(blocks[..0]) == opening && Bytes(blocks[..0]) == 0
  {
  }

  lemma NextItem(limit: nat, opening: seq<Item>, blocks: seq<Block>, i: nat)
    requires i < |blocks| && forall k :: 0 <= k < |blocks| ==> blocks[k].data != []
    ensures Parts(limit, opening + DataOf(blocks[..i + 1])) ==
            Place(limit, Parts(limit, opening + DataOf(blocks[..i])), blocks[i].data)
    ensures Bytes(blocks[..i + 1]) == Bytes(blocks[..i]) + |blocks[i].data|
  {
    hide Place, Bytes;
    var items := opening + DataOf(blocks[..i + 1]);
    assert blocks[..i + 1] == blocks[..i] + [blocks[i]];
    assert DataOf(blocks[..i + 1]) == DataOf(blocks[..i]) + [blocks[i].data];
    assert Init(items) == opening + DataOf(blocks[..i]) && Last(items) == blocks[i].data;
    OneBlock(blocks[..i], blocks[i]);
  }
}
