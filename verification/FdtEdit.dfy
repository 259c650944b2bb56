/** Editing a device tree blob in place: bytes behind an edit are moved, and the header follows. */
module FdtEdit {

  import opened FdtFormat
  import opened FdtTree
  import opened FdtBlob
  import opened FdtReader

  // ---- a blob that can be edited ----

  /** The blocks are in order and within the blob; there may be free space behind the strings. */
  predicate InOrder(h: Header, size: nat) {
    && h.magic == Complete && h.version == LAST_SUPPORTED_VERSION && h.lastCompVersion <= LAST_SUPPORTED_VERSION
    && HEADER_SIZE <= h.offRsv && h.offRsv + 16 <= h.offStruct && h.offStruct + h.sizeStruct <= h.offStrings
    && h.offStrings + h.sizeStrings <= h.totalsize <= size && h.totalsize < 0x8000_0000
  }

  function StructOf(h: Header, data: seq<Byte>): (b: seq<Byte>)
    requires InOrder(h, |data|)
    ensures |b| == h.sizeStruct
  {
    data[h.offStruct..h.offStruct + h.sizeStruct]
  }

  function StringsOf(h: Header, data: seq<Byte>): (b: seq<Byte>)
    requires InOrder(h, |data|)
    ensures |b| == h.sizeStrings
  {
    data[h.offStrings..h.offStrings + h.sizeStrings]
  }

  /** The blob holds these tokens, which mean these items. */
  ghost predicate Editable(h: Header, data: seq<Byte>, ts: seq<Token>, items: seq<Item>) {
    && InOrder(h, |data|) && ts != [] && ts[|ts| - 1].End?
    && Stream(StructOf(h, data), ts) && Means(StringsOf(h, data), ts, items)
  }

  ghost predicate Holding(fdt: Blob, ts: seq<Token>, items: seq<Item>)
    reads fdt, fdt.buf
  {
    Editable(fdt.Head(), fdt.buf[..], ts, items)
  }

  lemma EditBounds(h: Header, data: seq<Byte>, ts: seq<Token>, items: seq<Item>)
    requires Editable(h, data, ts, items)
    ensures InOrder(h, |data|) && ts != [] && ts[|ts| - 1].End? && Stream(StructOf(h, data), ts)
    ensures Means(StringsOf(h, data), ts, items)
  {
  }

  // ---- moving bytes ----

  /** The memory after _fdt_splice: what is behind oldlen bytes at p is moved to be behind newlen bytes. */
  function Spliced(data: seq<Byte>, p: nat, oldlen: nat, newlen: nat, end: nat): seq<Byte>
    requires p + oldlen <= end <= |data| && end - oldlen + newlen <= |data|
  {
    Put(data, p + newlen, data[p + oldlen..end])
  }

  /** _fdt_splice. */
  method Splice(fdt: Blob, p: nat, oldlen: nat, newlen: nat) returns (err: int)
    requires InOrder(fdt.Head(), fdt.buf.Length)
    modifies fdt.buf
    ensures
      var end := fdt.offStrings + fdt.sizeStrings;
      if p + oldlen > end then err == -BADOFFSET && fdt.buf[..] == old(fdt.buf[..])
      else if end - oldlen + newlen > fdt.totalsize then err == -NOSPACE && fdt.buf[..] == old(fdt.buf[..])
      else err == 0 && fdt.buf[..] == Spliced(old(fdt.buf[..]), p, oldlen, newlen, end)
  {
    hide Put;
    var end := fdt.offStrings + fdt.sizeStrings;
    if p + oldlen > end {
      return -BADOFFSET;
    }
    if end - oldlen + newlen > fdt.totalsize {
      return -NOSPACE;
    }
    Move(fdt.buf, p + newlen, p + oldlen, end - p - oldlen);
    err := 0;
  }

  /** What lies before the structure block, the memory reserve map among it, is as before. */
  predicate Kept(data: seq<Byte>, data': seq<Byte>, n: nat) {
    n <= |data| == |data'| && data'[..n] == data[..n]
  }

  lemma KeptByNone(data: seq<Byte>, n: nat)
    requires n <= |data|
    ensures Kept(data, data, n)
  {
  }

  lemma KeptByBoth(a: seq<Byte>, b: seq<Byte>, c: seq<Byte>, n: nat)
    requires Kept(a, b, n) && Kept(b, c, n)
    ensures Kept(a, c, n)
  {
  }

  lemma PutKeeps(data: seq<Byte>, off: nat, src: seq<Byte>, n: nat)
    requires n <= off && off + |src| <= |data|
    ensures Kept(data, Put(data, off, src), n)
  {
    PutSlices(data, off, src);
    assert Put(data, off, src)[0..n] == data[0..n];
  }

  lemma SplicedKeeps(data: seq<Byte>, p: nat, oldlen: nat, newlen: nat, end: nat, n: nat)
    requires n <= p && p + oldlen <= end <= |data| && end - oldlen + newlen <= |data|
    ensures Kept(data, Spliced(data, p, oldlen, newlen, end), n)
  {
    PutKeeps(data, p + newlen, data[p + oldlen..end], n);
  }

  /** The header after a change of the structure block's size. */
  function Resized(h: Header, oldlen: nat, newlen: nat): Header
    requires oldlen <= h.sizeStruct && oldlen <= h.offStrings
  {
    h.(sizeStruct := h.sizeStruct - oldlen + newlen, offStrings := h.offStrings - oldlen + newlen)
  }

  /** memcpy into the structure block or behind it. */
  method Write(fdt: Blob, off: nat, src: seq<Byte>, ghost before: seq<Byte>)
    requires fdt.offStruct <= off && off + |src| <= fdt.buf.Length && Kept(before, fdt.buf[..], fdt.offStruct)
    modifies fdt.buf
    ensures fdt.buf[..] == Put(old(fdt.buf[..]), off, src) && Kept(before, fdt.buf[..], fdt.offStruct)
  {
    hide Put, Kept;
    PutKeeps(fdt.buf[..], off, src, fdt.offStruct);
    KeptByBoth(before, fdt.buf[..], Put(fdt.buf[..], off, src), fdt.offStruct);
    Copy(fdt.buf, off, src);
  }

  /** _fdt_splice_struct. */
  method SpliceStruct(fdt: Blob, p: nat, oldlen: nat, newlen: nat) returns (err: int)
    requires InOrder(fdt.Head(), fdt.buf.Length)
    requires fdt.offStruct <= p && p + oldlen <= fdt.offStruct + fdt.sizeStruct
    modifies fdt`sizeStruct, fdt`offStrings, fdt.buf
    ensures
      var h := old(fdt.Head());
      var end := h.offStrings + h.sizeStrings;
      if end - oldlen + newlen > h.totalsize then err == -NOSPACE && fdt.buf[..] == old(fdt.buf[..]) && fdt.Head() == h
      else
        && err == 0 && fdt.Head() == Resized(h, oldlen, newlen)
        && fdt.buf[..] == Spliced(old(fdt.buf[..]), p, oldlen, newlen, end)
    ensures Kept(old(fdt.buf[..]), fdt.buf[..], fdt.offStruct)
  {
    hide Kept, Spliced;
    KeptByNone(fdt.buf[..], fdt.offStruct);
    var delta := newlen - oldlen;
    ghost var data, end := fdt.buf[..], fdt.offStrings + fdt.sizeStrings;
    err := Splice(fdt, p, oldlen, newlen);
    if err != 0 {
      return;
    }
    SplicedKeeps(data, p, oldlen, newlen, end, fdt.offStruct);
    fdt.sizeStruct := fdt.sizeStruct + delta;
    fdt.offStrings := fdt.offStrings + delta;
  }

  /** Bytes behind the splice keep their order, bytes before it their place. */
  lemma SplicedSlice(data: seq<Byte>, p: nat, oldlen: nat, newlen: nat, end: nat, i: nat, j: nat)
    requires p + oldlen <= i <= j <= end <= |data| && end - oldlen + newlen <= |data|
    ensures Spliced(data, p, oldlen, newlen, end)[i - oldlen + newlen..j - oldlen + newlen] == data[i..j]
  {
    var moved := data[p + oldlen..end];
    var data' := Put(data, p + newlen, moved);
    PutSlices(data, p + newlen, moved);
    SubSlice(data', p + newlen, p + newlen + |moved|, i - (p + oldlen), j - (p + oldlen));
    SubSlice(data, p + oldlen, end, i - (p + oldlen), j - (p + oldlen));
  }

  lemma SplicedBefore(data: seq<Byte>, p: nat, oldlen: nat, newlen: nat, end: nat, i: nat, j: nat)
    requires p + oldlen <= end <= |data| && end - oldlen + newlen <= |data| && i <= j <= p + newlen
    ensures Spliced(data, p, oldlen, newlen, end)[i..j] == data[i..j]
  {
    PutSlices(data, p + newlen, data[p + oldlen..end]);
  }

  /** What a splice of the structure block from a up to e does to the blocks. */
  lemma SpliceSlices(h: Header, data: seq<Byte>, a: nat, e: nat, newlen: nat)
    requires InOrder(h, |data|) && a <= e <= h.sizeStruct
    requires h.offStrings + h.sizeStrings - (e - a) + newlen <= h.totalsize
    ensures
      var h' := Resized(h, e - a, newlen);
      var data' := Spliced(data, h.offStruct + a, e - a, newlen, h.offStrings + h.sizeStrings);
      && InOrder(h', |data'|) && |data'| == |data| && h'.sizeStruct == h.sizeStruct - (e - a) + newlen
      && StructOf(h', data')[..a] == StructOf(h, data)[..a] && StructOf(h', data')[a + newlen..] == StructOf(h, data)[e..]
      && StringsOf(h', data') == StringsOf(h, data)
  {
    hide Spliced;
    var p, end := h.offStruct + a, h.offStrings + h.sizeStrings;
    SplicedLen(data, p, e - a, newlen, end);
    SplicedBefore(data, p, e - a, newlen, end, h.offStruct, p);
    SplicedSlice(data, p, e - a, newlen, end, h.offStrings, end);
    StructParts(h, data, a, e);
    StructParts(Resized(h, e - a, newlen), Spliced(data, p, e - a, newlen, end), a, a + newlen);
    SplicedSlice(data, p, e - a, newlen, end, h.offStruct + e, h.offStruct + h.sizeStruct);
  }

  /** The parts of the structure block as slices of the memory. */
  lemma StructParts(h: Header, data: seq<Byte>, a: nat, e: nat)
    requires InOrder(h, |data|) && a <= e <= h.sizeStruct
    ensures StructOf(h, data)[..a] == data[h.offStruct..h.offStruct + a]
    ensures StructOf(h, data)[a..e] == data[h.offStruct + a..h.offStruct + e]
    ensures StructOf(h, data)[e..] == data[h.offStruct + e..h.offStruct + h.sizeStruct]
  {
    SubSlice(data, h.offStruct, h.offStruct + h.sizeStruct, 0, a);
    SubSlice(data, h.offStruct, h.offStruct + h.sizeStruct, a, e);
    SubSlice(data, h.offStruct, h.offStruct + h.sizeStruct, e, h.sizeStruct);
  }

  lemma SplicedLen(data: seq<Byte>, p: nat, oldlen: nat, newlen: nat, end: nat)
    requires p + oldlen <= end <= |data| && end - oldlen + newlen <= |data|
    ensures |Spliced(data, p, oldlen, newlen, end)| == |data|
  {
  }

  /** Tokens j up to k replaced by others: by a splice, and a write into the room it leaves. */
  lemma TokensReplaced(h: Header, data: seq<Byte>, ts: seq<Token>, items: seq<Item>, j: nat, k: nat,
                       off: nat, src: seq<Byte>, us: seq<Token>, more: seq<Item>)
    requires Editable(h, data, ts, items) && j <= k < |ts| && Pos(ts, j) <= Pos(ts, k) <= h.sizeStruct
    requires h.offStrings + h.sizeStrings - (Pos(ts, k) - Pos(ts, j)) + TotalLen(us) <= h.totalsize
    requires off + |src| <= TotalLen(us)
    requires
      var data' := Spliced(data, h.offStruct + Pos(ts, j), Pos(ts, k) - Pos(ts, j), TotalLen(us), h.offStrings + h.sizeStrings);
      var p := h.offStruct + Pos(ts, j);
      |data'| == |data| && p + TotalLen(us) <= |data| && Stream(Put(data', p + off, src)[p..p + TotalLen(us)], us)
    requires Means(StringsOf(h, data), us, more)
    ensures Count(ts[..j]) <= Count(ts[..k]) <= |items|
    ensures
      var data' := Spliced(data, h.offStruct + Pos(ts, j), Pos(ts, k) - Pos(ts, j), TotalLen(us), h.offStrings + h.sizeStrings);
      Editable(Resized(h, Pos(ts, k) - Pos(ts, j), TotalLen(us)), Put(data', h.offStruct + Pos(ts, j) + off, src),
               ts[..j] + us + ts[k..], items[..Count(ts[..j])] + more + items[Count(ts[..k])..])
  {
    hide Stream, Means, TotalLen, Pos, Count, Spliced, Put, StructOf, StringsOf;
    EditBounds(h, data, ts, items);
    var a, e, n := Pos(ts, j), Pos(ts, k), TotalLen(us);
    var p := h.offStruct + a;
    var data' := Spliced(data, p, e - a, n, h.offStrings + h.sizeStrings);
    var data'' := Put(data', p + off, src);
    var h' := Resized(h, e - a, n);
    SpliceSlices(h, data, a, e, n);
    FilledSlices(h', data', a, off, src, n);
    var c := data''[p..p + n];
    StreamReplace(StructOf(h, data), ts, j, k, c, us);
    MeansReplace(StringsOf(h, data), ts, items, j, k, us, more);
    assert StructOf(h', data'') == StructOf(h, data)[..a] + c + StructOf(h, data)[e..];
    LastToken(ts, j, k, us);
  }

  /** A write into the room left by a splice. */
  lemma FilledSlices(h: Header, data: seq<Byte>, a: nat, off: nat, src: seq<Byte>, n: nat)
    requires InOrder(h, |data|) && a + n <= h.sizeStruct && off + |src| <= n
    ensures
      var data' := Put(data, h.offStruct + a + off, src);
      && |data'| == |data| && StringsOf(h, data') == StringsOf(h, data)
      && StructOf(h, data') == StructOf(h, data)[..a] + data'[h.offStruct + a..h.offStruct + a + n] + StructOf(h, data)[a + n..]
  {
    hide Put;
    var p := h.offStruct + a + off;
    var data' := Put(data, p, src);
    PutApart(data, p, src, h.offStrings, h.offStrings + h.sizeStrings);
    PutApart(data, p, src, h.offStruct, h.offStruct + a);
    PutApart(data, p, src, h.offStruct + a + n, h.offStruct + h.sizeStruct);
    StructParts(h, data, a, a + n);
    StructParts(h, data', a, a + n);
    ThreeParts(StructOf(h, data'), a, a + n);
  }

  lemma LastToken(ts: seq<Token>, j: nat, k: nat, us: seq<Token>)
    requires j <= k < |ts|
    ensures var r := ts[..j] + us + ts[k..]; r != [] && r[|r| - 1] == ts[|ts| - 1]
  {
  }

  lemma PutApart(data: seq<Byte>, off: nat, src: seq<Byte>, i: nat, j: nat)
    requires off + |src| <= |data| && i <= j <= |data| && (j <= off || off + |src| <= i)
    ensures Put(data, off, src)[i..j] == data[i..j]
  {
    hide Put;
    PutSlices(data, off, src);
  }

  lemma ThreeParts(b: seq<Byte>, i: nat, j: nat)
    requires i <= j <= |b|
    ensures b == b[..i] + b[i..j] + b[j..]
  {
  }

  lemma MeansReplace(strings: seq<Byte>, ts: seq<Token>, items: seq<Item>, j: nat, k: nat, us: seq<Token>, more: seq<Item>)
    requires Means(strings, ts, items) && j <= k <= |ts| && Means(strings, us, more)
    ensures Count(ts[..j]) <= Count(ts[..k]) <= |items|
    ensures Means(strings, ts[..j] + us + ts[k..], items[..Count(ts[..j])] + more + items[Count(ts[..k])..])
  {
    hide Means, Count;
    assert ts == ts[..j] + ts[j..] && ts == ts[..k] + ts[k..];
    MeansSplit(strings, ts[..j], ts[j..], items);
    MeansSplit(strings, ts[..k], ts[k..], items);
    assert ts[..k] == ts[..j] + ts[j..k];
    CountConcat(ts[..j], ts[j..k]);
    MeansConcat(strings, ts[..j], items[..Count(ts[..j])], us, more);
    MeansConcat(strings, ts[..j] + us, items[..Count(ts[..j])] + more, ts[k..], items[Count(ts[..k])..]);
  }

  lemma {:induction false} CountConcat(ts: seq<Token>, us: seq<Token>)
    ensures Count(ts + us) == Count(ts) + Count(us)
  {
    if ts == [] {
      assert ts + us == us;
    } else {
      assert (ts + us)[1..] == ts[1..] + us;
      CountConcat(ts[1..], us);
    }
  }

  lemma CountNext(ts: seq<Token>, x: nat)
    requires x < |ts| && !ts[x].Nop?
    ensures Count(ts[..x + 1]) == Count(ts[..x]) + 1
  {
    assert ts[..x + 1] == ts[..x] + [ts[x]];
    CountConcat(ts[..x], [ts[x]]);
    assert [ts[x]][1..] == [];
  }

  lemma OneLen(t: Token)
    ensures TotalLen([t]) == Len(t)
  {
    assert [t][1..] == [];
  }

  lemma PosWithin(h: Header, data: seq<Byte>, ts: seq<Token>, items: seq<Item>, j: nat, k: nat)
    requires Editable(h, data, ts, items) && j <= k <= |ts|
    ensures Pos(ts, j) <= Pos(ts, k) <= h.sizeStruct
  {
    hide Stream, Means, Pos;
    StreamCut(StructOf(h, data), ts, k);
    if j < k {
      PosOrder(ts, j, k);
    }
  }

  /** One token rewritten. */
  lemma TokenRewritten(h: Header, data: seq<Byte>, ts: seq<Token>, items: seq<Item>, x: nat,
                       off: nat, src: seq<Byte>, t: Token, item: Item)
    requires Editable(h, data, ts, items) && x + 1 < |ts| && !ts[x].Nop? && Pos(ts, x) + Len(ts[x]) <= h.sizeStruct
    requires h.offStrings + h.sizeStrings - Len(ts[x]) + Len(t) <= h.totalsize && off + |src| <= Len(t)
    requires
      var p := h.offStruct + Pos(ts, x);
      var data' := Spliced(data, p, Len(ts[x]), Len(t), h.offStrings + h.sizeStrings);
      |data'| == |data| && p + Len(t) <= |data| && Encodes(Put(data', p + off, src)[p..p + Len(t)], t)
    requires Matches(StringsOf(h, data), t, item)
    ensures Count(ts[..x]) < |items|
    ensures
      var p := h.offStruct + Pos(ts, x);
      var data' := Spliced(data, p, Len(ts[x]), Len(t), h.offStrings + h.sizeStrings);
      Editable(Resized(h, Len(ts[x]), Len(t)), Put(data', p + off, src), ts[x := t], items[Count(ts[..x]) := item])
  {
    hide Stream, Means, Pos, Spliced, Put, StructOf, StringsOf, Encodes, Matches, Count, Len, TotalLen;
    PosNext(ts, x);
    CountNext(ts, x);
    OneLen(t);
    var p := h.offStruct + Pos(ts, x);
    var data' := Spliced(data, p, Len(ts[x]), Len(t), h.offStrings + h.sizeStrings);
    StreamOne(Put(data', p + off, src)[p..p + Len(t)], t);
    MeansOne(StringsOf(h, data), t, item);
    TokensReplaced(h, data, ts, items, x, x + 1, off, src, [t], [item]);
    assert ts[..x] + [t] + ts[x + 1..] == ts[x := t];
    var c := Count(ts[..x]);
    assert items[..c] + [item] + items[c + 1..] == items[c := item];
  }

  /** Tokens j up to k removed. */
  lemma TokensRemoved(h: Header, data: seq<Byte>, ts: seq<Token>, items: seq<Item>, j: nat, k: nat)
    requires Editable(h, data, ts, items) && j <= k < |ts| && Pos(ts, j) <= Pos(ts, k) <= h.sizeStruct
    ensures Count(ts[..j]) <= Count(ts[..k]) <= |items|
    ensures
      Editable(Resized(h, Pos(ts, k) - Pos(ts, j), 0),
               Spliced(data, h.offStruct + Pos(ts, j), Pos(ts, k) - Pos(ts, j), 0, h.offStrings + h.sizeStrings),
               ts[..j] + ts[k..], items[..Count(ts[..j])] + items[Count(ts[..k])..])
  {
    hide Stream, Means, Pos, StructOf, StringsOf, Count;
    var p, n := h.offStruct + Pos(ts, j), Pos(ts, k) - Pos(ts, j);
    var data' := Spliced(data, p, n, 0, h.offStrings + h.sizeStrings);
    NoTokens(StringsOf(h, data));
    assert Put(data', p, []) == data' && data'[p..p] == [];
    TokensReplaced(h, data, ts, items, j, k, 0, [], [], []);
    assert ts[..j] + [] + ts[k..] == ts[..j] + ts[k..];
    assert items[..Count(ts[..j])] + [] + items[Count(ts[..k])..] == items[..Count(ts[..j])] + items[Count(ts[..k])..];
  }

  lemma NoTokens(strings: seq<Byte>)
    ensures Stream([], []) && Means(strings, [], []) && TotalLen([]) == 0
  {
  }

  // ---- properties ----

  /** The property that fdt_get_property finds: token x has this name, and no property of the node before it. */
  ghost predicate Found(h: Header, data: seq<Byte>, ts: seq<Token>, k: nat, name: Name, x: nat) {
    && InOrder(h, |data|) && x + 1 < |ts| && PropertyAt(StringsOf(h, data), ts, k, name, x) && ts[x].Prop?
    && NameAt(StringsOf(h, data), ts[x].nameoff, name)
  }

  /** The node has no such property: its properties end at token x. */
  ghost predicate Missing(h: Header, data: seq<Byte>, ts: seq<Token>, k: nat, name: Name, x: nat) {
    && InOrder(h, |data|) && x < |ts| && PropertyAt(StringsOf(h, data), ts, k, name, x) && !Inert(ts[x])
  }

  /** fdt_get_property_w. */
  method GetPropertyOf(fdt: Blob, nodeoffset: int, name: Name, ghost ts: seq<Token>, ghost items: seq<Item>, ghost k: nat)
    returns (prop: int, len: int, ghost x: nat)
    requires Holding(fdt, ts, items) && k + 1 < |ts| && ts[k].BeginNode? && nodeoffset == Pos(ts, k) && 0 !in name
    ensures x < |ts|
    ensures prop >= 0 ==>
      Found(fdt.Head(), fdt.buf[..], ts, k, name, x) && prop == Pos(ts, x) && len == |ts[x].value|
    ensures prop < 0 ==>
      && Missing(fdt.Head(), fdt.buf[..], ts, k, name, x)
      && len == prop == if ts[x].End? then -BADSTRUCTURE else -NOTFOUND
  {
    hide Editable, Pos, PropertyAt, NameAt;
    EditBounds(fdt.Head(), fdt.buf[..], ts, items);
    var b := fdt.buf[fdt.offStruct..fdt.offStruct + fdt.sizeStruct];
    var strings := fdt.buf[fdt.offStrings..fdt.offStrings + fdt.sizeStrings];
    assert b == StructOf(fdt.Head(), fdt.buf[..]) && strings == StringsOf(fdt.Head(), fdt.buf[..]);
    prop, len, x := GetProperty(b, strings, nodeoffset, name, ts, k);
    if prop >= 0 {
      InnerToken(ts, x);
    }
  }

  /** Where the property that was found stands. */
  lemma FoundFacts(h: Header, data: seq<Byte>, ts: seq<Token>, items: seq<Item>, k: nat, name: Name, x: nat)
    requires Editable(h, data, ts, items) && Found(h, data, ts, k, name, x)
    ensures x + 1 < |ts| && ts[x].Prop? && Len(ts[x]) == 12 + Align(|ts[x].value|)
    ensures Pos(ts, x + 1) == Pos(ts, x) + Len(ts[x]) <= h.sizeStruct
    ensures Count(ts[..x]) < |items| && Count(ts[..x + 1]) == Count(ts[..x]) + 1
  {
    hide Stream, Pos, PropertyAt, NameAt, StructOf, StringsOf, Means, Count;
    PropLen(ts[x]);
    PosNext(ts, x);
    PosWithin(h, data, ts, items, x, x + 1);
    CountNext(ts, x);
    NoTokens(StringsOf(h, data));
    MeansReplace(StringsOf(h, data), ts, items, x, x + 1, [], []);
  }

  /** fdt_delprop. */
  method DelProp(fdt: Blob, nodeoffset: int, name: Name, ghost ts: seq<Token>, ghost items: seq<Item>, ghost k: nat)
    returns (err: int, ghost x: nat)
    requires Holding(fdt, ts, items) && k + 1 < |ts| && ts[k].BeginNode? && nodeoffset == Pos(ts, k) && 0 !in name
    modifies fdt`sizeStruct, fdt`offStrings, fdt.buf
    ensures err == 0 ==>
      && old(Found(fdt.Head(), fdt.buf[..], ts, k, name, x)) && x < |ts| && Count(ts[..x]) < |items|
      && Holding(fdt, ts[..x] + ts[x + 1..], items[..Count(ts[..x])] + items[Count(ts[..x]) + 1..])
    ensures err != 0 ==>
      && old(Missing(fdt.Head(), fdt.buf[..], ts, k, name, x)) && x < |ts|
      && err == (if ts[x].End? then -BADSTRUCTURE else -NOTFOUND)
      && fdt.Head() == old(fdt.Head()) && fdt.buf[..] == old(fdt.buf[..])
    ensures Kept(old(fdt.buf[..]), fdt.buf[..], fdt.offStruct)
  {
    hide Kept, Editable, Pos, Spliced, Found, Count, Align;
    ghost var h, data := fdt.Head(), fdt.buf[..];
    EditBounds(h, data, ts, items);
    KeptByNone(data, h.offStruct);
    var prop, len;
    prop, len, x := GetPropertyOf(fdt, nodeoffset, name, ts, items, k);
    if prop < 0 {
      return len, x;
    }
    FoundFacts(h, data, ts, items, k, name, x);
    TokensRemoved(h, data, ts, items, x, x + 1);
    var proplen := 12 + Align(len);
    err := SpliceStruct(fdt, fdt.offStruct + prop, proplen, 0);
  }

  lemma InnerToken(ts: seq<Token>, x: nat)
    requires x < |ts| && ts[|ts| - 1].End? && !ts[x].End?
    ensures x + 1 < |ts|
  {
  }

  lemma PropLen(t: Token)
    requires t.Prop?
    ensures Len(t) == 12 + Align(|t.value|)
  {
  }

  // the value of a property

  /** Writing a length and a value that starts behind kept bytes. */
  lemma PutGap(data: seq<Byte>, p: nat, len: seq<Byte>, keep: nat, val: seq<Byte>)
    requires |len| == 4 && p + 12 + keep + |val| <= |data|
    ensures Put(Put(data, p + 4, len), p + 12 + keep, val)
         == Put(data, p + 4, len + data[p + 8..p + 12 + keep] + val)
  {
    var d := Put(data, p + 4, len);
    assert d[p + 8..p + 12 + keep] == data[p + 8..p + 12 + keep];
    PutPut(data, p + 4, len, data[p + 8..p + 12 + keep]);
    PutSelf(d, p + 8, p + 12 + keep);
    PutPut(data, p + 4, len + data[p + 8..p + 12 + keep], val);
  }

  lemma PutSelf(data: seq<Byte>, i: nat, j: nat)
    requires i <= j <= |data|
    ensures Put(data, i, data[i..j]) == data
  {
  }

  /** What is in memory where a property stands. */
  lemma PropertyInMemory(h: Header, data: seq<Byte>, ts: seq<Token>, items: seq<Item>, x: nat)
    requires Editable(h, data, ts, items) && x < |ts| && ts[x].Prop?
    ensures
      var p := h.offStruct + Pos(ts, x);
      && p + 12 + |ts[x].value| <= h.offStruct + h.sizeStruct <= |data| && Word(data, p) == PROP
      && Word(data, p + 8) == ts[x].nameoff && data[p + 12..p + 12 + |ts[x].value|] == ts[x].value
  {
    hide Stream, Means, Pos, Word, Align, TotalLen;
    var b, q, n := StructOf(h, data), Pos(ts, x), |ts[x].value|;
    PropFields(b, ts, x);
    StreamAt(b, ts, x);
    TagInMemory(b, ts, x);
    WordIn(data, h.offStruct, h.sizeStruct, q);
    WordIn(data, h.offStruct, h.sizeStruct, q + 8);
    SubSlice(data, h.offStruct, h.offStruct + h.sizeStruct, q + 12, q + 12 + n);
  }

  lemma TagInMemory(b: seq<Byte>, ts: seq<Token>, x: nat)
    requires Stream(b, ts) && x < |ts|
    ensures Pos(ts, x) + 4 <= |b| && Word(b, Pos(ts, x)) == Tag(ts[x])
  {
    hide Stream, TotalLen, Word, Pos;
    StreamAt(b, ts, x);
    WordIn(b, Pos(ts, x), Len(ts[x]), 0);
  }

  lemma WordsSame(d: seq<Byte>, i: nat, e: seq<Byte>, j: nat)
    requires i + 4 <= |d| && j + 4 <= |e| && d[i..i + 4] == e[j..j + 4]
    ensures Word(d, i) == Word(e, j)
  {
    var s, r := d[i..i + 4], e[j..j + 4];
    assert d[i] == s[0] && d[i + 1] == s[1] && d[i + 2] == s[2] && d[i + 3] == s[3];
    assert e[j] == r[0] && e[j + 1] == r[1] && e[j + 2] == r[2] && e[j + 3] == r[3];
  }

  /** The bytes of a property, given where they came from. */
  lemma PropertyEncoded(d: seq<Byte>, p: nat, t: Token)
    requires t.Prop? && p + Len(t) <= |d| && |t.value| < 0x8000_0000
    requires Word(d, p) == PROP && d[p + 4..p + 8] == WordBytes(|t.value|) && Word(d, p + 8) == t.nameoff
    requires d[p + 12..p + 12 + |t.value|] == t.value
    ensures Encodes(d[p..p + Len(t)], t)
  {
    hide Word, WordBytes, Align;
    var n := Len(t);
    WordAt(d, p + 4, |t.value|);
    WordIn(d, p, n, 0);
    WordIn(d, p, n, 4);
    WordIn(d, p, n, 8);
    SubSlice(d, p, p + n, 12, 12 + |t.value|);
  }

  lemma MemoryAfter(data: seq<Byte>, p: nat, oldlen: nat, newlen: nat, end: nat, len: seq<Byte>, keep: nat, val: seq<Byte>)
    requires p + oldlen <= end <= |data| && end - oldlen + newlen <= |data|
    requires |len| == 4 && 12 + keep + |val| <= newlen
    ensures
      var d := Put(Put(Spliced(data, p, oldlen, newlen, end), p + 4, len), p + 12 + keep, val);
      && |d| == |data| && d[p..p + 4] == data[p..p + 4] && d[p + 4..p + 8] == len
      && d[p + 8..p + 12 + keep] == data[p + 8..p + 12 + keep] && d[p + 12 + keep..p + 12 + keep + |val|] == val
  {
    hide Put, Spliced;
    SplicedLen(data, p, oldlen, newlen, end);
    var s := Spliced(data, p, oldlen, newlen, end);
    SplicedBefore(data, p, oldlen, newlen, end, p, p + 4);
    SplicedBefore(data, p, oldlen, newlen, end, p + 8, p + 12 + keep);
    var e := Put(s, p + 4, len);
    PutApart(s, p + 4, len, p, p + 4);
    PutApart(s, p + 4, len, p + 8, p + 12 + keep);
    PutSlices(s, p + 4, len);
    PutApart(e, p + 12 + keep, val, p, p + 4);
    PutApart(e, p + 12 + keep, val, p + 4, p + 8);
    PutApart(e, p + 12 + keep, val, p + 8, p + 12 + keep);
    PutSlices(e, p + 12 + keep, val);
  }

  /** A property whose value is made of a kept part of the old one and new bytes. */
  lemma ValueEncoded(h: Header, data: seq<Byte>, ts: seq<Token>, items: seq<Item>, x: nat, keep: nat, val: seq<Byte>)
    requires Editable(h, data, ts, items) && x + 1 < |ts| && ts[x].Prop? && Pos(ts, x) + Len(ts[x]) <= h.sizeStruct
    requires keep <= |ts[x].value| && keep + |val| < 0x8000_0000
    requires h.offStrings + h.sizeStrings - Len(ts[x]) + 12 + Align(keep + |val|) <= h.totalsize
    ensures
      var p, n := h.offStruct + Pos(ts, x), 12 + Align(keep + |val|);
      var data' := Spliced(data, p, Len(ts[x]), n, h.offStrings + h.sizeStrings);
      && |data'| == |data| && p + n <= |data| && 12 + keep + |val| <= n
      && Encodes(Put(Put(data', p + 4, WordBytes(keep + |val|)), p + 12 + keep, val)[p..p + n],
                 Prop(ts[x].nameoff, ts[x].value[..keep] + val))
  {
    hide Stream, Means, Pos, Spliced, Put, StructOf, StringsOf, Encodes, WordBytes, Word, Align;
    EditBounds(h, data, ts, items);
    var p, v := h.offStruct + Pos(ts, x), ts[x].value;
    var t := Prop(ts[x].nameoff, v[..keep] + val);
    var end := h.offStrings + h.sizeStrings;
    PropLen(t);
    SplicedLen(data, p, Len(ts[x]), Len(t), end);
    PropertyInMemory(h, data, ts, items, x);
    MemoryAfter(data, p, Len(ts[x]), Len(t), end, WordBytes(keep + |val|), keep, val);
    var d := Put(Put(Spliced(data, p, Len(ts[x]), Len(t), end), p + 4, WordBytes(keep + |val|)), p + 12 + keep, val);
    WordsSame(d, p, data, p);
    KeptSlices(d, data, p, keep);
    WordsSame(d, p + 8, data, p + 8);
    JoinedValue(d, data, p, v, keep, val);
    PropertyEncoded(d, p, t);
  }

  lemma JoinedValue(d: seq<Byte>, data: seq<Byte>, p: nat, v: seq<Byte>, keep: nat, val: seq<Byte>)
    requires keep <= |v| && p + 12 + |v| <= |data| && data[p + 12..p + 12 + |v|] == v && p + 12 + keep + |val| <= |d| == |data|
    requires d[p + 12..p + 12 + keep] == data[p + 12..p + 12 + keep] && d[p + 12 + keep..p + 12 + keep + |val|] == val
    ensures d[p + 12..p + 12 + |v[..keep] + val|] == v[..keep] + val
  {
    SubSlice(data, p + 12, p + 12 + |v|, 0, keep);
    JoinSlices(d, p + 12, p + 12 + keep, p + 12 + keep + |val|);
  }

  lemma JoinSlices(d: seq<Byte>, i: nat, j: nat, k: nat)
    requires i <= j <= k <= |d|
    ensures d[i..k] == d[i..j] + d[j..k]
  {
  }

  lemma KeptSlices(d: seq<Byte>, data: seq<Byte>, p: nat, keep: nat)
    requires p + 12 + keep <= |d| == |data| && d[p + 8..p + 12 + keep] == data[p + 8..p + 12 + keep]
    ensures d[p + 8..p + 12] == data[p + 8..p + 12] && d[p + 12..p + 12 + keep] == data[p + 12..p + 12 + keep]
  {
    SubSlice(d, p + 8, p + 12 + keep, 0, 4);
    SubSlice(data, p + 8, p + 12 + keep, 0, 4);
    SubSlice(d, p + 8, p + 12 + keep, 4, 4 + keep);
    SubSlice(data, p + 8, p + 12 + keep, 4, 4 + keep);
  }

  /** The property after its length and part of its value are written. */
  lemma ValueRewritten(h: Header, data: seq<Byte>, ts: seq<Token>, items: seq<Item>, k: nat, name: Name, x: nat,
                       keep: nat, val: seq<Byte>)
    requires Editable(h, data, ts, items) && Found(h, data, ts, k, name, x)
    requires keep <= |ts[x].value| && keep + |val| < 0x8000_0000
    requires Pos(ts, x) + Len(ts[x]) <= h.sizeStruct
    requires h.offStrings + h.sizeStrings - Len(ts[x]) + 12 + Align(keep + |val|) <= h.totalsize
    ensures Count(ts[..x]) < |items|
    ensures
      var p, n := h.offStruct + Pos(ts, x), 12 + Align(keep + |val|);
      var v := ts[x].value[..keep] + val;
      var data' := Spliced(data, p, Len(ts[x]), n, h.offStrings + h.sizeStrings);
      && |data'| == |data| && p + n <= |data| && 12 + keep + |val| <= n
      && Editable(Resized(h, Len(ts[x]), n), Put(Put(data', p + 4, WordBytes(keep + |val|)), p + 12 + keep, val),
                  ts[x := Prop(ts[x].nameoff, v)], items[Count(ts[..x]) := Has(Property(name, v))])
  {
    hide Editable, Pos, Spliced, Put, StructOf, StringsOf, Encodes, WordBytes, Align, PropertyAt, NameAt, Count;
    ValueEncoded(h, data, ts, items, x, keep, val);
    var p, v := h.offStruct + Pos(ts, x), ts[x].value[..keep] + val;
    var t := Prop(ts[x].nameoff, v);
    PropLen(t);
    var data' := Spliced(data, p, Len(ts[x]), Len(t), h.offStrings + h.sizeStrings);
    PutGap(data', p, WordBytes(keep + |val|), keep, val);
    var src := WordBytes(keep + |val|) + data'[p + 8..p + 12 + keep] + val;
    TokenRewritten(h, data, ts, items, x, 4, src, t, Has(Property(name, v)));
  }

  /** Property x has been given room for a value of another length, and that length; the value is not yet written. */
  ghost predicate RoomMade(h: Header, data: seq<Byte>, h': Header, data': seq<Byte>, ts: seq<Token>, x: nat, len: nat)
    requires x < |ts|
  {
    var p, end, o, n := h.offStruct + Pos(ts, x), h.offStrings + h.sizeStrings, Len(ts[x]), 12 + Align(len);
    && Pos(ts, x) + o <= h.sizeStruct && h.sizeStruct <= h.offStrings
        && p + o <= end <= h.totalsize && end - o + n <= h.totalsize <= |data|
    && len < 0x1_0000_0000 && h' == Resized(h, o, n) && p + 8 <= |data|
    && |Spliced(data, p, o, n, end)| == |data| && data' == Put(Spliced(data, p, o, n, end), p + 4, WordBytes(len))
  }

  lemma SplicedShift(data: seq<Byte>, p: nat, o: nat, n: nat, end: nat)
    requires p + 12 + o <= end <= |data| && end - o + n <= |data|
    ensures Spliced(data, p + 12, o, n, end) == Spliced(data, p, 12 + o, 12 + n, end)
    ensures |Spliced(data, p + 12, o, n, end)| == |data|
  {
  }

  /** By a splice behind the header of the property. */
  lemma RoomIsMade(h: Header, data: seq<Byte>, ts: seq<Token>, items: seq<Item>, k: nat, name: Name, x: nat, len: nat)
    requires Editable(h, data, ts, items) && Found(h, data, ts, k, name, x) && len < 0x8000_0000
    requires x < |ts| && ts[x].Prop?
    requires h.offStrings + h.sizeStrings - Align(|ts[x].value|) + Align(len) <= h.totalsize
    ensures Align(|ts[x].value|) <= h.sizeStruct && h.sizeStruct <= h.offStrings
    ensures
      var p, o, n, end := h.offStruct + Pos(ts, x), Align(|ts[x].value|), Align(len), h.offStrings + h.sizeStrings;
      && p + 12 + o <= end <= h.totalsize <= |data| && p + 8 <= |data|
      && |Spliced(data, p + 12, o, n, end)| == |data|
      && RoomMade(h, data, Resized(h, o, n), Put(Spliced(data, p + 12, o, n, end), p + 4, WordBytes(len)), ts, x, len)
  {
    hide Editable, Pos, Found, Count, Align, WordBytes, Spliced, Put;
    EditBounds(h, data, ts, items);
    FoundFacts(h, data, ts, items, k, name, x);
    SplicedShift(data, h.offStruct + Pos(ts, x), Align(|ts[x].value|), Align(len), h.offStrings + h.sizeStrings);
  }

  /** _fdt_resize_property: room for the new value, and the new length; the value itself is up to the caller. */
  method ResizeProperty(fdt: Blob, nodeoffset: int, name: Name, len: nat,
                        ghost ts: seq<Token>, ghost items: seq<Item>, ghost k: nat)
    returns (err: int, prop: int, ghost x: nat)
    requires Holding(fdt, ts, items) && k + 1 < |ts| && ts[k].BeginNode? && nodeoffset == Pos(ts, k) && 0 !in name
    requires len < 0x8000_0000
    modifies fdt`sizeStruct, fdt`offStrings, fdt.buf
    ensures x < |ts|
    ensures err == 0 || err == -NOSPACE ==> old(Found(fdt.Head(), fdt.buf[..], ts, k, name, x)) && prop == Pos(ts, x)
    ensures err == 0 ==> RoomMade(old(fdt.Head()), old(fdt.buf[..]), fdt.Head(), fdt.buf[..], ts, x, len)
    ensures err != 0 ==> fdt.Head() == old(fdt.Head()) && fdt.buf[..] == old(fdt.buf[..])
    ensures err == -NOSPACE <==>
      (old(Found(fdt.Head(), fdt.buf[..], ts, k, name, x))
       && old(fdt.offStrings + fdt.sizeStrings) - Len(ts[x]) + 12 + Align(len) > old(fdt.totalsize))
    ensures err != 0 && err != -NOSPACE ==>
      old(Missing(fdt.Head(), fdt.buf[..], ts, k, name, x)) && err == (if ts[x].End? then -BADSTRUCTURE else -NOTFOUND)
    ensures Kept(old(fdt.buf[..]), fdt.buf[..], fdt.offStruct)
  {
    hide Kept, Editable, Pos, Found, Missing, Count, Align, WordBytes, Spliced, Put, Len, RoomMade;
    ghost var h, data := fdt.Head(), fdt.buf[..];
    EditBounds(h, data, ts, items);
    KeptByNone(data, h.offStruct);
    var oldlen;
    prop, oldlen, x := GetPropertyOf(fdt, nodeoffset, name, ts, items, k);
    if prop < 0 {
      NotBoth(h, data, ts, k, name, x);
      return oldlen, prop, x;
    }
    FoundFacts(h, data, ts, items, k, name, x);
    err := SpliceStruct(fdt, fdt.offStruct + prop + 12, Align(oldlen), Align(len));
    if err != 0 {
      return;
    }
    RoomIsMade(h, data, ts, items, k, name, x, len);
    Write(fdt, fdt.offStruct + prop + 4, WordBytes(len), data);
  }

  lemma NotBoth(h: Header, data: seq<Byte>, ts: seq<Token>, k: nat, name: Name, x: nat)
    requires Missing(h, data, ts, k, name, x)
    ensures !Found(h, data, ts, k, name, x)
  {
  }

  /** The value is written into the room made for it. */
  lemma RoomFilled(h: Header, data: seq<Byte>, h': Header, data': seq<Byte>, ts: seq<Token>, items: seq<Item>, k: nat,
                   name: Name, x: nat, keep: nat, val: seq<Byte>)
    requires Editable(h, data, ts, items) && Found(h, data, ts, k, name, x) && x < |ts|
    requires keep <= |ts[x].value| && keep + |val| < 0x8000_0000 && RoomMade(h, data, h', data', ts, x, keep + |val|)
    ensures Count(ts[..x]) < |items| && h'.offStruct == h.offStruct && h.offStruct + Pos(ts, x) + 12 + keep + |val| <= |data'|
    ensures
      var v := ts[x].value[..keep] + val;
      Editable(h', Put(data', h.offStruct + Pos(ts, x) + 12 + keep, val),
               ts[x := Prop(ts[x].nameoff, v)], items[Count(ts[..x]) := Has(Property(name, v))])
  {
    hide Editable, Pos, Spliced, Put, WordBytes, Align, Found, Count, Len;
    PropAlign(keep + |val|);
    ValueRewritten(h, data, ts, items, k, name, x, keep, val);
  }

  lemma PropAlign(n: nat)
    ensures n <= Align(n) < n + 4
  {
  }

  // a new property

  /** A string behind the others. */
  lemma StringAppended(h: Header, data: seq<Byte>, ts: seq<Token>, items: seq<Item>, s: Name)
    requires Editable(h, data, ts, items) && 0 !in s && h.offStrings + h.sizeStrings + |s| + 1 <= h.totalsize
    ensures
      var h', data' := h.(sizeStrings := h.sizeStrings + |s| + 1), Put(data, h.offStrings + h.sizeStrings, Terminated(s));
      Editable(h', data', ts, items) && NameAt(StringsOf(h', data'), h.sizeStrings, s)
  {
    hide Stream, Means, Put, NameAt;
    var end := h.offStrings + h.sizeStrings;
    var h', data' := h.(sizeStrings := h.sizeStrings + |s| + 1), Put(data, end, Terminated(s));
    PutApart(data, end, Terminated(s), h.offStruct, h.offStruct + h.sizeStruct);
    PutApart(data, end, Terminated(s), h.offStrings, end);
    PutSlices(data, end, Terminated(s));
    JoinSlices(data', h.offStrings, end, end + |s| + 1);
    MeansStays(StringsOf(h, data), Terminated(s), ts, items);
    SubSlice(StringsOf(h', data'), 0, h'.sizeStrings, h.sizeStrings, h'.sizeStrings);
    NameIsTerminated(StringsOf(h', data'), h.sizeStrings, s);
  }

  /** _fdt_find_add_string: the offset of the name in the strings block, or an error. */
  method FindAddString(fdt: Blob, s: Name, ghost ts: seq<Token>, ghost items: seq<Item>) returns (offset: int)
    requires Holding(fdt, ts, items) && 0 !in s
    modifies fdt`sizeStrings, fdt.buf
    ensures Holding(fdt, ts, items) && old(InOrder(fdt.Head(), fdt.buf.Length))
    ensures offset >= 0 ==>
      && InOrder(fdt.Head(), fdt.buf.Length) && NameAt(StringsOf(fdt.Head(), fdt.buf[..]), offset, s)
      && fdt.sizeStrings == old(fdt.sizeStrings + NameRoom(StringsOf(fdt.Head(), fdt.buf[..]), s))
    ensures offset < 0 ==> offset == -NOSPACE && fdt.Head() == old(fdt.Head()) && fdt.buf[..] == old(fdt.buf[..])
    ensures offset < 0 <==>
      old(fdt.offStrings + fdt.sizeStrings + NameRoom(StringsOf(fdt.Head(), fdt.buf[..]), s)) > fdt.totalsize
    ensures Kept(old(fdt.buf[..]), fdt.buf[..], fdt.offStruct)
  {
    hide Kept, Editable, Put, NameAt;
    EditBounds(fdt.Head(), fdt.buf[..], ts, items);
    KeptByNone(fdt.buf[..], fdt.offStruct);
    var strings := fdt.buf[fdt.offStrings..fdt.offStrings + fdt.sizeStrings];
    assert strings == StringsOf(fdt.Head(), fdt.buf[..]);
    var p := FindString(strings, s);
    if p >= 0 {
      return p;
    }
    var end := fdt.offStrings + fdt.sizeStrings;
    var len := |s| + 1;
    var err := Splice(fdt, end, 0, len);
    if err != 0 {
      return err;
    }
    NothingMoved(old(fdt.buf[..]), end, len);
    ghost var h, data := fdt.Head(), fdt.buf[..];
    StringAppended(h, data, ts, items, s);
    fdt.sizeStrings := fdt.sizeStrings + len;
    Write(fdt, end, Terminated(s), old(fdt.buf[..]));
    offset := end - fdt.offStrings;
  }

  /** Behind the last byte there is nothing to move. */
  lemma NothingMoved(data: seq<Byte>, end: nat, n: nat)
    requires end + n <= |data|
    ensures Spliced(data, end, 0, n, end) == data
  {
    var d, none := Spliced(data, end, 0, n, end), data[end + 0..end];
    forall k | 0 <= k < |data| ensures d[k] == data[k] {
      PutAt(data, end + n, none, k);
    }
  }

  /** Before the properties of a node, a new one, with no room taken from the others. */
  lemma PropertyInserted(h: Header, data: seq<Byte>, ts: seq<Token>, items: seq<Item>, k: nat, nameoff: nat, name: Name,
                         val: seq<Byte>)
    requires Editable(h, data, ts, items) && k + 1 < |ts| && ts[k].BeginNode? && Pos(ts, k + 1) <= h.sizeStruct
    requires NameAt(StringsOf(h, data), nameoff, name) && nameoff < 0x8000_0000 && |val| < 0x8000_0000
    requires h.offStrings + h.sizeStrings + 12 + Align(|val|) <= h.totalsize
    ensures Count(ts[..k]) < |items|
    ensures
      var p, n := h.offStruct + Pos(ts, k + 1), 12 + Align(|val|);
      var data' := Spliced(data, p, 0, n, h.offStrings + h.sizeStrings);
      && |data'| == |data| && p + 12 + |val| <= |data|
      && Editable(Resized(h, 0, n),
                  Put(Put(Put(Put(data', p, WordBytes(PROP)), p + 8, WordBytes(nameoff)), p + 4, WordBytes(|val|)), p + 12, val),
                  ts[..k + 1] + [Prop(nameoff, val)] + ts[k + 1..],
                  items[..Count(ts[..k]) + 1] + [Has(Property(name, val))] + items[Count(ts[..k]) + 1..])
  {
    hide Editable, Pos, Put, Spliced, Encodes, WordBytes, Align, Count, StructOf, StringsOf, NameAt, TotalLen;
    EditBounds(h, data, ts, items);
    var p, t := h.offStruct + Pos(ts, k + 1), Prop(nameoff, val);
    PropLen(t);
    PropAlign(|val|);
    OneLen(t);
    var data' := Spliced(data, p, 0, Len(t), h.offStrings + h.sizeStrings);
    SplicedLen(data, p, 0, Len(t), h.offStrings + h.sizeStrings);
    FourPuts(data', p, WordBytes(PROP), WordBytes(|val|), WordBytes(nameoff), val);
    PropEncoded(data', p, nameoff, val);
    var src := WordBytes(PROP) + WordBytes(|val|) + WordBytes(nameoff) + val;
    StreamOne(Put(data', p, src)[p..p + Len(t)], t);
    MeansOne(StringsOf(h, data), t, Has(Property(name, val)));
    CountNext(ts, k);
    TokensReplaced(h, data, ts, items, k + 1, k + 1, 0, src, [t], [Has(Property(name, val))]);
  }

  /** A property has been put in front of those of a node, but for its value. */
  ghost predicate RoomAdded(h: Header, data: seq<Byte>, h': Header, data': seq<Byte>, ts: seq<Token>, items: seq<Item>,
                            k: nat, nameoff: nat, name: Name, len: nat)
    requires k < |ts|
  {
    var p, end, n := h.offStruct + Pos(ts, k + 1), h.offStrings + h.sizeStrings, 12 + Align(len);
    && Editable(h, data, ts, items) && NameAt(StringsOf(h, data), nameoff, name) && nameoff < 0x8000_0000
    && Pos(ts, k + 1) <= h.sizeStruct && p <= end <= h.totalsize && end + n <= h.totalsize <= |data| && len < 0x8000_0000
    && h' == Resized(h, 0, n) && |Spliced(data, p, 0, n, end)| == |data| && p + 12 <= |data|
    && data' == Put(Put(Put(Spliced(data, p, 0, n, end), p, WordBytes(PROP)), p + 8, WordBytes(nameoff)), p + 4, WordBytes(len))
  }

  /** _fdt_add_property. When there is no room for the property, its name may have been added all the same. */
  method AddProperty(fdt: Blob, nodeoffset: int, name: Name, len: nat,
                     ghost ts: seq<Token>, ghost items: seq<Item>, ghost k: nat)
    returns (err: int, prop: int, ghost h: Header, ghost data: seq<Byte>, ghost nameoff: nat)
    requires Holding(fdt, ts, items) && k + 1 < |ts| && ts[k].BeginNode? && nodeoffset == Pos(ts, k) && 0 !in name
    requires len < 0x8000_0000
    modifies fdt`sizeStruct, fdt`offStrings, fdt`sizeStrings, fdt.buf
    ensures err == 0 || err == -NOSPACE
    ensures err == 0 ==>
      prop == Pos(ts, k + 1) && RoomAdded(h, data, fdt.Head(), fdt.buf[..], ts, items, k, nameoff, name, len)
    ensures err == -NOSPACE ==> Holding(fdt, ts, items)
    ensures old(InOrder(fdt.Head(), fdt.buf.Length))
    ensures err == -NOSPACE <==>
      old(fdt.offStrings + fdt.sizeStrings + NameRoom(StringsOf(fdt.Head(), fdt.buf[..]), name)) + 12 + Align(len) > fdt.totalsize
    ensures Kept(old(fdt.buf[..]), fdt.buf[..], fdt.offStruct)
  {
    hide Kept, Editable, Pos, Align, NameAt, StructOf, StringsOf, RoomAdded, NextTagOf, Stream, Means, Put, Spliced;
    h, data, nameoff, prop := fdt.Head(), fdt.buf[..], 0, 0;
    EditBounds(h, data, ts, items);
    KeptByNone(data, h.offStruct);
    NodeRead(h, data, ts, items, k);
    var next := CheckNodeOffset(fdt.buf[fdt.offStruct..fdt.offStruct + fdt.sizeStruct], nodeoffset);
    if next < 0 {
      return next, prop, h, data, nameoff;
    }
    var off := FindAddString(fdt, name, ts, items);
    if off < 0 {
      return off, prop, h, data, nameoff;
    }
    h, data, nameoff := fdt.Head(), fdt.buf[..], off;
    prop := next;
    err := PlaceProperty(fdt, next, off, len, ts, items, k, name);
    KeptByBoth(old(fdt.buf[..]), data, fdt.buf[..], fdt.offStruct);
  }

  /** The header of a property, with room for its value. */
  method PlaceProperty(fdt: Blob, next: nat, nameoff: nat, len: nat,
                       ghost ts: seq<Token>, ghost items: seq<Item>, ghost k: nat, ghost name: Name) returns (err: int)
    requires Holding(fdt, ts, items) && k + 1 < |ts| && ts[k].BeginNode? && next == Pos(ts, k + 1) && len < 0x8000_0000
    requires InOrder(fdt.Head(), fdt.buf.Length) && NameAt(StringsOf(fdt.Head(), fdt.buf[..]), nameoff, name)
    modifies fdt`sizeStruct, fdt`offStrings, fdt.buf
    ensures err == if old(fdt.offStrings + fdt.sizeStrings) + 12 + Align(len) > fdt.totalsize then -NOSPACE else 0
    ensures err == 0 ==> RoomAdded(old(fdt.Head()), old(fdt.buf[..]), fdt.Head(), fdt.buf[..], ts, items, k, nameoff, name, len)
    ensures err != 0 ==> fdt.Head() == old(fdt.Head()) && fdt.buf[..] == old(fdt.buf[..])
    ensures Kept(old(fdt.buf[..]), fdt.buf[..], fdt.offStruct)
  {
    hide Kept, Editable, Pos, Align, WordBytes, Spliced, Put, NameAt, StructOf, StringsOf;
    ghost var h, data := fdt.Head(), fdt.buf[..];
    EditBounds(h, data, ts, items);
    KeptByNone(data, h.offStruct);
    PosWithin(h, data, ts, items, k + 1, |ts|);
    NameSmall(StringsOf(h, data), nameoff, name);
    var proplen := 12 + Align(len);
    err := SpliceStruct(fdt, fdt.offStruct + next, 0, proplen);
    if err != 0 {
      return;
    }
    SplicedLen(data, h.offStruct + next, 0, proplen, h.offStrings + h.sizeStrings);
    Write(fdt, fdt.offStruct + next, WordBytes(PROP), data);
    Write(fdt, fdt.offStruct + next + 8, WordBytes(nameoff), data);
    Write(fdt, fdt.offStruct + next + 4, WordBytes(len), data);
  }

  lemma NodeRead(h: Header, data: seq<Byte>, ts: seq<Token>, items: seq<Item>, k: nat)
    requires Editable(h, data, ts, items) && k < |ts| && ts[k].BeginNode?
    ensures StructOf(h, data) == data[h.offStruct..h.offStruct + h.sizeStruct]
    ensures NextTagOf(data[h.offStruct..h.offStruct + h.sizeStruct], Pos(ts, k)) == (BEGIN_NODE, Pos(ts, k + 1))
    ensures Pos(ts, k) % 4 == 0
  {
    hide Stream, Means, Pos, NextTagOf;
    ReadAt(StructOf(h, data), ts, k);
  }

  lemma NameSmall(strings: seq<Byte>, off: nat, name: Name)
    requires NameAt(strings, off, name)
    ensures off < |strings|
  {
  }

  lemma AddedFilled(h: Header, data: seq<Byte>, h': Header, data': seq<Byte>, ts: seq<Token>, items: seq<Item>,
                    k: nat, nameoff: nat, name: Name, val: seq<Byte>)
    requires k + 1 < |ts| && ts[k].BeginNode? && RoomAdded(h, data, h', data', ts, items, k, nameoff, name, |val|)
    ensures Count(ts[..k]) < |items| && h'.offStruct == h.offStruct && h.offStruct + Pos(ts, k + 1) + 12 + |val| <= |data'|
    ensures
      Editable(h', Put(data', h.offStruct + Pos(ts, k + 1) + 12, val), ts[..k + 1] + [Prop(nameoff, val)] + ts[k + 1..],
               items[..Count(ts[..k]) + 1] + [Has(Property(name, val))] + items[Count(ts[..k]) + 1..])
  {
    hide Editable, Pos, Align, WordBytes, Spliced, Put, NameAt, StructOf, StringsOf, Count;
    PropertyInserted(h, data, ts, items, k, nameoff, name, val);
  }

  /** One element replaced, or a new one put in. */
  function With<T>(s: seq<T>, i: nat, e: T): seq<T> {
    if i < |s| then s[i := e] else s
  }

  function Inserted<T>(s: seq<T>, i: nat, e: T): seq<T> {
    if i <= |s| then s[..i] + [e] + s[i..] else s
  }

  /** What setting or appending to a property makes of the items: the property found gets its value, or a new one
      becomes the first of the node. */
  function ItemsWith(items: seq<Item>, ts: seq<Token>, found: bool, k: nat, x: nat, p: Property): seq<Item>
    requires k <= |ts| && x <= |ts|
  {
    if found then With(items, Count(ts[..x]), Has(p)) else Inserted(items, Count(ts[..k]) + 1, Has(p))
  }

  function TokensWith(ts: seq<Token>, found: bool, k: nat, x: nat, nameoff: nat, val: seq<Byte>): seq<Token> {
    if found then With(ts, x, Prop(nameoff, val)) else Inserted(ts, k + 1, Prop(nameoff, val))
  }

  lemma RoomFilledFound(h: Header, data: seq<Byte>, h': Header, data': seq<Byte>, ts: seq<Token>, items: seq<Item>, k: nat,
                        name: Name, x: nat, keep: nat, val: seq<Byte>)
    requires Editable(h, data, ts, items) && Found(h, data, ts, k, name, x) && x < |ts| && k < |ts|
    requires keep <= |ts[x].value| && keep + |val| < 0x8000_0000 && RoomMade(h, data, h', data', ts, x, keep + |val|)
    ensures ts[x].Prop? && h'.offStruct == h.offStruct && h.offStruct + Pos(ts, x) + 12 + keep + |val| <= |data'|
    ensures
      var v := ts[x].value[..keep] + val;
      Editable(h', Put(data', h.offStruct + Pos(ts, x) + 12 + keep, val),
               TokensWith(ts, true, k, x, ts[x].nameoff, v), ItemsWith(items, ts, true, k, x, Property(name, v)))
  {
    hide Editable, Pos, Put, RoomMade, Count;
    RoomFilled(h, data, h', data', ts, items, k, name, x, keep, val);
  }

  lemma RoomFilledMissing(h: Header, data: seq<Byte>, h': Header, data': seq<Byte>, ts: seq<Token>, items: seq<Item>,
                          k: nat, x: nat, nameoff: nat, name: Name, val: seq<Byte>)
    requires k + 1 < |ts| && x < |ts| && ts[k].BeginNode? && RoomAdded(h, data, h', data', ts, items, k, nameoff, name, |val|)
    ensures h'.offStruct == h.offStruct && h.offStruct + Pos(ts, k + 1) + 12 + |val| <= |data'|
    ensures
      Editable(h', Put(data', h.offStruct + Pos(ts, k + 1) + 12, val),
               TokensWith(ts, false, k, x, nameoff, val), ItemsWith(items, ts, false, k, x, Property(name, val)))
  {
    hide Editable, Pos, Put, RoomAdded, Count;
    AddedFilled(h, data, h', data', ts, items, k, nameoff, name, val);
  }

  /** The bytes that setting a property to a value of this length adds to the blob, or, if negative, takes off it. */
  ghost function RoomTaken(h: Header, data: seq<Byte>, ts: seq<Token>, found: bool, x: nat, name: Name, len: nat): int
    requires InOrder(h, |data|) && x < |ts| && (found ==> ts[x].Prop?)
  {
    if found then Align(len) - Align(|ts[x].value|) else NameRoom(StringsOf(h, data), name) + 12 + Align(len)
  }

  /** fdt_setprop. */
  method SetProp(fdt: Blob, nodeoffset: int, name: Name, val: seq<Byte>,
                 ghost ts: seq<Token>, ghost items: seq<Item>, ghost k: nat)
    returns (err: int, ghost found: bool, ghost x: nat, ghost nameoff: nat)
    requires Holding(fdt, ts, items) && k + 1 < |ts| && ts[k].BeginNode? && nodeoffset == Pos(ts, k) && 0 !in name
    requires |val| < 0x8000_0000
    modifies fdt`sizeStruct, fdt`offStrings, fdt`sizeStrings, fdt.buf
    ensures x < |ts|
    ensures found ==> old(Found(fdt.Head(), fdt.buf[..], ts, k, name, x)) && ts[x].Prop?
    ensures !found ==> old(Missing(fdt.Head(), fdt.buf[..], ts, k, name, x))
    ensures err == 0 ==>
      Holding(fdt, TokensWith(ts, found, k, x, nameoff, val), ItemsWith(items, ts, found, k, x, Property(name, val)))
    ensures err != 0 ==> Holding(fdt, ts, items) && (err == -NOSPACE || (err == -BADSTRUCTURE && !found && ts[x].End?))
    ensures old(InOrder(fdt.Head(), fdt.buf.Length))
    ensures err == -NOSPACE <==>
      var room := old(RoomTaken(fdt.Head(), fdt.buf[..], ts, found, x, name, |val|));
      (found || !ts[x].End?) && old(fdt.offStrings + fdt.sizeStrings) + room > fdt.totalsize
    ensures Kept(old(fdt.buf[..]), fdt.buf[..], fdt.offStruct)
  {
    hide Kept, Editable, Pos, Align, Put, Found, Missing, RoomMade, RoomAdded, TokensWith, ItemsWith, NameRoom, Len;
    nameoff, found := 0, true;
    ghost var h, data := fdt.Head(), fdt.buf[..];
    EditBounds(h, data, ts, items);
    KeptByNone(data, h.offStruct);
    var prop;
    err, prop, x := ResizeProperty(fdt, nodeoffset, name, |val|, ts, items, k);
    found := err == 0 || err == -NOSPACE;
    if found {
      FoundIsProp(h, data, ts, k, name, x);
      PropLen(ts[x]);
    }
    if err == -NOTFOUND {
      err, prop, h, data, nameoff := AddProperty(fdt, nodeoffset, name, |val|, ts, items, k);
      if err == 0 {
        RoomFilledMissing(h, data, fdt.Head(), fdt.buf[..], ts, items, k, x, nameoff, name, val);
      }
    } else if err == 0 {
      nameoff := ts[x].nameoff;
      assert ts[x].value[..0] + val == val;
      RoomFilledFound(h, data, fdt.Head(), fdt.buf[..], ts, items, k, name, x, 0, val);
    }
    if err != 0 {
      return;
    }
    Write(fdt, fdt.offStruct + prop + 12, val, old(fdt.buf[..]));
  }

  lemma FoundIsProp(h: Header, data: seq<Byte>, ts: seq<Token>, k: nat, name: Name, x: nat)
    requires Found(h, data, ts, k, name, x)
    ensures x < |ts| && ts[x].Prop?
  {
  }

  lemma FoundSmall(h: Header, data: seq<Byte>, ts: seq<Token>, items: seq<Item>, k: nat, name: Name, x: nat)
    requires Editable(h, data, ts, items) && Found(h, data, ts, k, name, x)
    ensures x < |ts| && ts[x].Prop? && |ts[x].value| <= |data|
  {
    hide Stream, Means, Word, Pos;
    PropertyInMemory(h, data, ts, items, x);
  }

  /** Room for a longer value behind the old one, and the new length. */
  method GrowProperty(fdt: Blob, prop: nat, oldlen: nat, newlen: nat, ghost ts: seq<Token>, ghost items: seq<Item>,
                      ghost k: nat, ghost name: Name, ghost x: nat) returns (err: int)
    requires Holding(fdt, ts, items) && Found(fdt.Head(), fdt.buf[..], ts, k, name, x) && x < |ts| && ts[x].Prop?
    requires prop == Pos(ts, x) && oldlen == |ts[x].value| && newlen < 0x8000_0000
    modifies fdt`sizeStruct, fdt`offStrings, fdt.buf
    ensures err == if old(fdt.offStrings + fdt.sizeStrings) - Align(oldlen) + Align(newlen) > fdt.totalsize
                   then -NOSPACE else 0
    ensures err == 0 ==> RoomMade(old(fdt.Head()), old(fdt.buf[..]), fdt.Head(), fdt.buf[..], ts, x, newlen)
    ensures err != 0 ==> fdt.Head() == old(fdt.Head()) && fdt.buf[..] == old(fdt.buf[..])
    ensures Kept(old(fdt.buf[..]), fdt.buf[..], fdt.offStruct)
  {
    hide Kept, Editable, Pos, Found, Count, Align, WordBytes, Spliced, Put, Len, RoomMade;
    ghost var h, data := fdt.Head(), fdt.buf[..];
    EditBounds(h, data, ts, items);
    KeptByNone(data, h.offStruct);
    FoundFacts(h, data, ts, items, k, name, x);
    err := SpliceStruct(fdt, fdt.offStruct + prop + 12, Align(oldlen), Align(newlen));
    if err != 0 {
      return;
    }
    RoomIsMade(h, data, ts, items, k, name, x, newlen);
    Write(fdt, fdt.offStruct + prop + 4, WordBytes(newlen), data);
  }

  /** The value of the property found is continued. */
  method ContinueProperty(fdt: Blob, prop: nat, oldlen: nat, val: seq<Byte>, ghost ts: seq<Token>, ghost items: seq<Item>,
                          ghost k: nat, ghost name: Name, ghost x: nat) returns (err: int)
    requires Holding(fdt, ts, items) && Found(fdt.Head(), fdt.buf[..], ts, k, name, x) && x < |ts| && k < |ts| && ts[x].Prop?
    requires prop == Pos(ts, x) && oldlen == |ts[x].value| && oldlen + |val| < 0x8000_0000
    modifies fdt`sizeStruct, fdt`offStrings, fdt.buf
    ensures err == if old(fdt.offStrings + fdt.sizeStrings) - Align(oldlen) + Align(oldlen + |val|) > fdt.totalsize
                   then -NOSPACE else 0
    ensures err == 0 ==>
      var v := ts[x].value + val;
      Holding(fdt, TokensWith(ts, true, k, x, ts[x].nameoff, v), ItemsWith(items, ts, true, k, x, Property(name, v)))
    ensures err != 0 ==> Holding(fdt, ts, items)
    ensures Kept(old(fdt.buf[..]), fdt.buf[..], fdt.offStruct)
  {
    hide Kept, Editable, Pos, Align, Put, Found, RoomMade, TokensWith, ItemsWith;
    ghost var h, data := fdt.Head(), fdt.buf[..];
    err := GrowProperty(fdt, prop, oldlen, oldlen + |val|, ts, items, k, name, x);
    if err != 0 {
      return;
    }
    assert ts[x].value[..oldlen] == ts[x].value;
    RoomFilledFound(h, data, fdt.Head(), fdt.buf[..], ts, items, k, name, x, oldlen, val);
    Write(fdt, fdt.offStruct + prop + 12 + oldlen, val, data);
  }

  /** fdt_appendprop. */
  method AppendProp(fdt: Blob, nodeoffset: int, name: Name, val: seq<Byte>,
                    ghost ts: seq<Token>, ghost items: seq<Item>, ghost k: nat)
    returns (err: int, ghost found: bool, ghost x: nat, ghost nameoff: nat)
    requires Holding(fdt, ts, items) && k + 1 < |ts| && ts[k].BeginNode? && nodeoffset == Pos(ts, k) && 0 !in name
    requires |val| + fdt.buf.Length < 0x8000_0000
    modifies fdt`sizeStruct, fdt`offStrings, fdt`sizeStrings, fdt.buf
    ensures x < |ts|
    ensures found ==> old(Found(fdt.Head(), fdt.buf[..], ts, k, name, x)) && ts[x].Prop?
    ensures !found ==> old(Missing(fdt.Head(), fdt.buf[..], ts, k, name, x))
    ensures err == 0 ==>
      var v := if found then ts[x].value + val else val;
      Holding(fdt, TokensWith(ts, found, k, x, nameoff, v), ItemsWith(items, ts, found, k, x, Property(name, v)))
    ensures err != 0 ==> err == -NOSPACE && Holding(fdt, ts, items)
    ensures old(InOrder(fdt.Head(), fdt.buf.Length))
    ensures err == -NOSPACE <==>
      var n := if found then |ts[x].value| + |val| else |val|;
      old(fdt.offStrings + fdt.sizeStrings + RoomTaken(fdt.Head(), fdt.buf[..], ts, found, x, name, n)) > fdt.totalsize
    ensures Kept(old(fdt.buf[..]), fdt.buf[..], fdt.offStruct)
  {
    hide Kept, Editable, Pos, Align, Put, Found, Missing, RoomMade, RoomAdded, TokensWith, ItemsWith;
    nameoff, err := 0, 0;
    ghost var h, data := fdt.Head(), fdt.buf[..];
    EditBounds(h, data, ts, items);
    KeptByNone(data, h.offStruct);
    var prop, oldlen;
    prop, oldlen, x := GetPropertyOf(fdt, nodeoffset, name, ts, items, k);
    found := prop >= 0;
    if prop >= 0 {
      FoundIsProp(h, data, ts, k, name, x);
      FoundSmall(h, data, ts, items, k, name, x);
      nameoff := ts[x].nameoff;
      err := ContinueProperty(fdt, prop, oldlen, val, ts, items, k, name, x);
    } else {
      err, prop, h, data, nameoff := AddProperty(fdt, nodeoffset, name, |val|, ts, items, k);
      if err != 0 {
        return;
      }
      RoomFilledMissing(h, data, fdt.Head(), fdt.buf[..], ts, items, k, x, nameoff, name, val);
      Write(fdt, fdt.offStruct + prop + 12, val, old(fdt.buf[..]));
    }
  }

  // ---- nodes ----

  lemma RenamedNode(h: Header, data: seq<Byte>, ts: seq<Token>, items: seq<Item>, k: nat, name: Name)
    requires Editable(h, data, ts, items) && k + 1 < |ts| && ts[k].BeginNode? && 0 !in name
    requires Pos(ts, k) + Len(ts[k]) <= h.sizeStruct
    requires h.offStrings + h.sizeStrings - Len(ts[k]) + 4 + Align(|name| + 1) <= h.totalsize
    ensures Count(ts[..k]) < |items|
    ensures
      var p, n := h.offStruct + Pos(ts, k), 4 + Align(|name| + 1);
      var data' := Spliced(data, p, Len(ts[k]), n, h.offStrings + h.sizeStrings);
      && |data'| == |data| && p + 4 + |name| + 1 <= |data|
      && Editable(Resized(h, Len(ts[k]), n), Put(data', p + 4, Terminated(name)),
                  With(ts, k, BeginNode(name)), With(items, Count(ts[..k]), Begin(name)))
  {
    hide Editable, Pos, Put, Spliced, Encodes, WordBytes, Word, Align, Count, StructOf, StringsOf, TotalLen, Terminated;
    EditBounds(h, data, ts, items);
    var p, t := h.offStruct + Pos(ts, k), BeginNode(name);
    NodeLen(t);
    PropAlign(|name| + 1);
    var end := h.offStrings + h.sizeStrings;
    var data' := Spliced(data, p, Len(ts[k]), Len(t), end);
    SplicedLen(data, p, Len(ts[k]), Len(t), end);
    TerminatedLen(name);
    NodeNameEncoded(h, data, ts, items, k, name);
    TokenRewritten(h, data, ts, items, k, 4, Terminated(name), t, Begin(name));
  }

  lemma TerminatedLen(name: Name)
    ensures |Terminated(name)| == |name| + 1
  {
  }

  lemma NodeLen(t: Token)
    requires t.BeginNode?
    ensures Len(t) == 4 + Align(|t.name| + 1)
  {
  }

  lemma NodeNameEncoded(h: Header, data: seq<Byte>, ts: seq<Token>, items: seq<Item>, k: nat, name: Name)
    requires Editable(h, data, ts, items) && k < |ts| && ts[k].BeginNode? && 0 !in name
    requires Pos(ts, k) + Len(ts[k]) <= h.sizeStruct
    requires h.offStrings + h.sizeStrings - Len(ts[k]) + Len(BeginNode(name)) <= h.totalsize
    ensures
      var p, t := h.offStruct + Pos(ts, k), BeginNode(name);
      var data' := Spliced(data, p, Len(ts[k]), Len(t), h.offStrings + h.sizeStrings);
      && |data'| == |data| && p + Len(t) <= |data| && p + 4 + |Terminated(name)| <= |data|
      && Encodes(Put(data', p + 4, Terminated(name))[p..p + Len(t)], t)
  {
    hide Stream, Means, Pos, Put, Spliced, Encodes, Word;
    var p, t := h.offStruct + Pos(ts, k), BeginNode(name);
    var end := h.offStrings + h.sizeStrings;
    var data' := Spliced(data, p, Len(ts[k]), Len(t), end);
    SplicedLen(data, p, Len(ts[k]), Len(t), end);
    TagInMemory(StructOf(h, data), ts, k);
    WordIn(data, h.offStruct, h.sizeStruct, Pos(ts, k));
    SplicedBefore(data, p, Len(ts[k]), Len(t), end, p, p + 4);
    var d := Put(data', p + 4, Terminated(name));
    PutApart(data', p + 4, Terminated(name), p, p + 4);
    WordsSame(d, p, data, p);
    PutSlices(data', p + 4, Terminated(name));
    NodeEncoded(d, p, name);
  }

  lemma NodeEncoded(d: seq<Byte>, p: nat, name: Name)
    requires 0 !in name && p + Len(BeginNode(name)) <= |d| && Word(d, p) == BEGIN_NODE
    requires d[p + 4..p + 4 + |name| + 1] == Terminated(name)
    ensures Encodes(d[p..p + Len(BeginNode(name))], BeginNode(name))
  {
    hide Word;
    var n := Len(BeginNode(name));
    WordIn(d, p, n, 0);
    SubSlice(d, p, p + n, 4, 4 + |name| + 1);
    var b := d[p..p + n];
    var c := b[4..4 + |name| + 1];
    assert c[..|name|] == name && c[|name|] == 0;
    SubSlice(b, 4, 4 + |name| + 1, 0, |name|);
  }

  lemma SplicedShift4(data: seq<Byte>, p: nat, o: nat, n: nat, end: nat)
    requires p + 4 + o <= end <= |data| && end - o + n <= |data|
    ensures Spliced(data, p + 4, o, n, end) == Spliced(data, p, 4 + o, 4 + n, end)
    ensures |Spliced(data, p + 4, o, n, end)| == |data|
  {
  }

  /** By a splice behind the tag of the node. */
  lemma RenamedInPlace(h: Header, data: seq<Byte>, ts: seq<Token>, items: seq<Item>, k: nat, name: Name, o: nat, n: nat)
    requires Editable(h, data, ts, items) && k + 1 < |ts| && ts[k].BeginNode? && 0 !in name
    requires Len(ts[k]) == 4 + o && Pos(ts, k) + 4 + o <= h.sizeStruct && n == Align(|name| + 1)
    requires h.offStrings + h.sizeStrings - o + n <= h.totalsize
    ensures o <= h.sizeStruct && h.sizeStruct <= h.offStrings
    ensures
      var p, end := h.offStruct + Pos(ts, k) + 4, h.offStrings + h.sizeStrings;
      && p + o <= end <= |data| && end - o + n <= |data|
      && |Spliced(data, p, o, n, end)| == |data| && p + |Terminated(name)| <= |data|
      && Editable(Resized(h, o, n), Put(Spliced(data, p, o, n, end), p, Terminated(name)),
                  With(ts, k, BeginNode(name)), With(items, Count(ts[..k]), Begin(name)))
  {
    hide Editable, Pos, Put, Spliced, Align, Count, Len, Terminated, Stream, Means, StructOf, StringsOf;
    EditBounds(h, data, ts, items);
    TerminatedLen(name);
    RenamedNode(h, data, ts, items, k, name);
    SplicedShift4(data, h.offStruct + Pos(ts, k), o, n, h.offStrings + h.sizeStrings);
  }

  /** fdt_set_name. */
  method SetName(fdt: Blob, nodeoffset: int, name: Name, ghost ts: seq<Token>, ghost items: seq<Item>, ghost k: nat)
    returns (err: int)
    requires Holding(fdt, ts, items) && k + 1 < |ts| && ts[k].BeginNode? && nodeoffset == Pos(ts, k)
    requires 0 !in name && |name| < 0x4000_0000
    modifies fdt`sizeStruct, fdt`offStrings, fdt.buf
    ensures err == if old(fdt.offStrings + fdt.sizeStrings) - Len(ts[k]) + Len(BeginNode(name)) > fdt.totalsize
                   then -NOSPACE else 0
    ensures if err == 0 then Holding(fdt, With(ts, k, BeginNode(name)), With(items, Count(ts[..k]), Begin(name)))
            else Holding(fdt, ts, items)
    ensures Kept(old(fdt.buf[..]), fdt.buf[..], fdt.offStruct)
  {
    hide Kept, Editable, Pos, Put, Spliced, Align, Count, Len, Terminated, Stream, Means, With;
    ghost var h, data := fdt.Head(), fdt.buf[..];
    EditBounds(h, data, ts, items);
    KeptByNone(data, h.offStruct);
    NodeRead(h, data, ts, items, k);
    var oldname, oldlen := GetName(fdt.buf[fdt.offStruct..fdt.offStruct + fdt.sizeStruct], nodeoffset, ts, k);
    var newlen := |name|;
    NodeLen(ts[k]);
    NodeLen(BeginNode(name));
    PosNext(ts, k);
    PosWithin(h, data, ts, items, k, k + 1);
    err := SpliceStruct(fdt, fdt.offStruct + nodeoffset + 4, Align(oldlen + 1), Align(newlen + 1));
    if err != 0 {
      return;
    }
    RenamedInPlace(h, data, ts, items, k, name, Align(oldlen + 1), Align(newlen + 1));
    TerminatedLen(name);
    Write(fdt, fdt.offStruct + nodeoffset + 4, Terminated(name), data);
  }

  /** The bytes of a new node without properties or subnodes. */
  function NodeBytes(name: Name): (src: seq<Byte>)
    ensures |src| == Len(BeginNode(name)) + 4
  {
    WordBytes(BEGIN_NODE) + (name + seq(Align(|name| + 1) - |name|, _ => 0)) + WordBytes(END_NODE)
  }

  lemma NodeBytesStream(name: Name)
    requires 0 !in name
    ensures Stream(NodeBytes(name), [BeginNode(name), EndNode])
    ensures TotalLen([BeginNode(name), EndNode]) == |NodeBytes(name)|
  {
    hide Encodes, WordBytes;
    var src, t, n := NodeBytes(name), BeginNode(name), Len(BeginNode(name));
    NodeLen(t);
    var b := src[..n];
    assert b[..4] == WordBytes(BEGIN_NODE);
    assert b[4..4 + |name| + 1] == name + [0];
    EncodesBegin(b, name);
    assert src[n..] == WordBytes(END_NODE);
    EncodesBare(src[n..], EndNode);
    OneLen(EndNode);
    StreamOne(b, t);
    StreamOne(src[n..], EndNode);
    StreamConcat(b, [t], src[n..], [EndNode]);
    assert b + src[n..] == src && [t] + [EndNode] == [t, EndNode];
    OneLen(t);
    TotalLenConcat([t], [EndNode]);
  }

  lemma NodeMeans(strings: seq<Byte>, name: Name)
    ensures Means(strings, [BeginNode(name), EndNode], [Begin(name), EndOf])
  {
    MeansOne(strings, BeginNode(name), Begin(name));
    MeansOne(strings, EndNode, EndOf);
    MeansConcat(strings, [BeginNode(name)], [Begin(name)], [EndNode], [EndOf]);
    assert [BeginNode(name)] + [EndNode] == [BeginNode(name), EndNode] && [Begin(name)] + [EndOf] == [Begin(name), EndOf];
  }

  /** The writes of fdt_add_subnode are one. */
  lemma NodePuts(data: seq<Byte>, p: nat, name: Name)
    requires p + |NodeBytes(name)| <= |data|
    ensures
      var n := Align(|name| + 1);
      && Len(BeginNode(name)) == 4 + n && |name| < n
      && Put(Put(Put(Put(data, p, WordBytes(BEGIN_NODE)), p + 4, seq(n, _ => 0)), p + 4, name), p + 4 + n, WordBytes(END_NODE))
         == Put(data, p, NodeBytes(name))
  {
    hide WordBytes, Align;
    NodeLen(BeginNode(name));
    PropAlign(|name| + 1);
    var n := Align(|name| + 1);
    var zeros := seq(n, _ => 0);
    var d := Put(data, p, WordBytes(BEGIN_NODE));
    PutOver(d, p + 4, zeros, name);
    var filled := name + zeros[|name|..];
    assert zeros[|name|..] == seq(n - |name|, _ => 0);
    PutPut(data, p, WordBytes(BEGIN_NODE), filled);
    PutPut(data, p, WordBytes(BEGIN_NODE) + filled, WordBytes(END_NODE));
  }

  lemma PutOver(data: seq<Byte>, p: nat, a: seq<Byte>, b: seq<Byte>)
    requires p + |a| <= |data| && |b| <= |a|
    ensures Put(Put(data, p, a), p, b) == Put(data, p, b + a[|b|..])
  {
    var x, y := Put(Put(data, p, a), p, b), Put(data, p, b + a[|b|..]);
    forall k | 0 <= k < |data| ensures x[k] == y[k] {
      PutAt(Put(data, p, a), p, b, k);
      PutAt(data, p, a, k);
      PutAt(data, p, b + a[|b|..], k);
    }
  }

  lemma NodeInserted(h: Header, data: seq<Byte>, ts: seq<Token>, items: seq<Item>, x: nat, name: Name)
    requires Editable(h, data, ts, items) && x < |ts| && 0 !in name && Pos(ts, x) <= h.sizeStruct
    requires h.offStrings + h.sizeStrings + |NodeBytes(name)| <= h.totalsize
    ensures Count(ts[..x]) <= |items|
    ensures
      var p, n := h.offStruct + Pos(ts, x), |NodeBytes(name)|;
      var data' := Spliced(data, p, 0, n, h.offStrings + h.sizeStrings);
      && |data'| == |data| && p + n <= |data|
      && Editable(Resized(h, 0, n), Put(data', p, NodeBytes(name)), ts[..x] + [BeginNode(name), EndNode] + ts[x..],
                  items[..Count(ts[..x])] + [Begin(name), EndOf] + items[Count(ts[..x])..])
  {
    hide Editable, Pos, Put, Spliced, NodeBytes, Count, StructOf, StringsOf, TotalLen, Stream, Means;
    EditBounds(h, data, ts, items);
    var p, n := h.offStruct + Pos(ts, x), |NodeBytes(name)|;
    var data' := Spliced(data, p, 0, n, h.offStrings + h.sizeStrings);
    SplicedLen(data, p, 0, n, h.offStrings + h.sizeStrings);
    NodeBytesStream(name);
    PutSlices(data', p, NodeBytes(name));
    NodeMeans(StringsOf(h, data), name);
    TokensReplaced(h, data, ts, items, x, x, 0, NodeBytes(name), [BeginNode(name), EndNode], [Begin(name), EndOf]);
  }

  /** Where fdt_add_subnode puts the new node: behind the properties of the parent. */
  method SkipProperties(b: seq<Byte>, parentoffset: int, ghost ts: seq<Token>, ghost n: Place)
    returns (offset: int, ghost x: nat)
    requires Stream(b, ts) && NodeAt(ts, n) && n.start <= |ts| && parentoffset == Pos(ts, n.start)
    ensures n.start < x < n.end <= |ts| && AllInert(ts, n.start + 1, x) && !Inert(ts[x]) && offset == Pos(ts, x)
  {
    hide Stream, NodeAt, Pos, NextTagOf;
    KidsBounds(ts, n);
    ReadAt(b, ts, n.start);
    var tag, next := NextTag(b, parentoffset);
    x := n.start + 1;
    offset := next;
    ReadAt(b, ts, x);
    TagKinds(ts[x]);
    tag, next := NextTag(b, offset);
    while tag == PROP || tag == NOP
      invariant n.start < x < n.end <= |ts| && AllInert(ts, n.start + 1, x) && offset == Pos(ts, x)
      invariant (tag, next) == (Tag(ts[x]), Pos(ts, x + 1))
      decreases n.end - x
    {
      TagKinds(ts[x]);
      offset := next;
      x := x + 1;
      ReadAt(b, ts, x);
      tag, next := NextTag(b, offset);
    }
    TagKinds(ts[x]);
  }

  /** fdt_add_subnode_namelen: the offset of the new node, or an error. */
  method AddSubnode(fdt: Blob, parentoffset: int, name: Name, ghost ts: seq<Token>, ghost items: seq<Item>, ghost n: Place)
    returns (offset: int, ghost x: nat)
    requires Holding(fdt, ts, items) && NodeAt(ts, n) && n.end < |ts| && n.start <= |ts| && parentoffset == Pos(ts, n.start)
    requires 0 !in name && |name| < 0x4000_0000
    modifies fdt`sizeStruct, fdt`offStrings, fdt.buf
    ensures offset >= 0 ==>
      && n.start < x < n.end && AllInert(ts, n.start + 1, x) && !Inert(ts[x]) && offset == Pos(ts, x)
      && NoneFits(ts, n, name, |n.kids|) && Count(ts[..x]) <= |items|
      && Holding(fdt, ts[..x] + [BeginNode(name), EndNode] + ts[x..],
                 items[..Count(ts[..x])] + [Begin(name), EndOf] + items[Count(ts[..x])..])
    ensures offset < 0 ==> (offset == -EXISTS || offset == -NOSPACE) && Holding(fdt, ts, items)
    ensures offset == -EXISTS <==> !NoneFits(ts, n, name, |n.kids|)
    ensures offset == -NOSPACE <==>
      NoneFits(ts, n, name, |n.kids|) && old(fdt.offStrings + fdt.sizeStrings) + |NodeBytes(name)| > fdt.totalsize
    ensures Kept(old(fdt.buf[..]), fdt.buf[..], fdt.offStruct)
  {
    hide Kept, Editable, Pos, Put, Spliced, Align, Count, Len, Stream, Means, NodeAt, NoneFits, NodeBytes, AllInert;
    ghost var h, data := fdt.Head(), fdt.buf[..];
    EditBounds(h, data, ts, items);
    KeptByNone(data, h.offStruct);
    var b := fdt.buf[fdt.offStruct..fdt.offStruct + fdt.sizeStruct];
    assert b == StructOf(h, data);
    x := 0;
    ghost var i;
    offset, i := SubnodeOffset(b, parentoffset, name, ts, n);
    if offset >= 0 {
      FitsSome(ts, n, name, i);
      return -EXISTS, x;
    } else if offset != -NOTFOUND {
      return;
    }
    offset, x := SkipProperties(b, parentoffset, ts, n);
    PosWithin(h, data, ts, items, x, |ts|);
    var namelen := |name|;
    NodeLen(BeginNode(name));
    var nodelen := 4 + Align(namelen + 1) + 4;
    assert nodelen == |NodeBytes(name)|;
    var err := SpliceStruct(fdt, fdt.offStruct + offset, 0, nodelen);
    if err != 0 {
      return err, x;
    }
    NodeInserted(h, data, ts, items, x, name);
    WriteNode(fdt, fdt.offStruct + offset, name, nodelen, data);
  }

  /** The header and the end tag of a node. */
  method WriteNode(fdt: Blob, nh: nat, name: Name, nodelen: nat, ghost before: seq<Byte>)
    requires nodelen == |NodeBytes(name)| && nh + nodelen <= fdt.buf.Length && fdt.offStruct <= nh
    requires Kept(before, fdt.buf[..], fdt.offStruct)
    modifies fdt.buf
    ensures fdt.buf[..] == Put(old(fdt.buf[..]), nh, NodeBytes(name)) && Kept(before, fdt.buf[..], fdt.offStruct)
  {
    hide Kept, WordBytes, Put, Align;
    NodePuts(fdt.buf[..], nh, name);
    Write(fdt, nh, WordBytes(BEGIN_NODE), before);
    Write(fdt, nh + 4, seq(Align(|name| + 1), _ => 0), before);
    Write(fdt, nh + 4, name, before);
    Write(fdt, nh + nodelen - 4, WordBytes(END_NODE), before);
  }

  lemma FitsSome(ts: seq<Token>, n: Place, name: Name, i: nat)
    requires i < |n.kids| && n.kids[i].start < |ts| && ts[n.kids[i].start].BeginNode?
    requires Fits(ts[n.kids[i].start].name, name)
    ensures !NoneFits(ts, n, name, |n.kids|)
  {
  }

  /** fdt_del_node. */
  method DelNode(fdt: Blob, nodeoffset: int, ghost ts: seq<Token>, ghost items: seq<Item>, ghost n: Place) returns (err: int)
    requires Holding(fdt, ts, items) && NodeAt(ts, n) && n.end < |ts| && n.start <= |ts| && nodeoffset == Pos(ts, n.start)
    modifies fdt`sizeStruct, fdt`offStrings, fdt.buf
    ensures n.start < n.end && Count(ts[..n.start]) <= Count(ts[..n.end]) <= |items|
    ensures err == 0 && Holding(fdt, ts[..n.start] + ts[n.end..], items[..Count(ts[..n.start])] + items[Count(ts[..n.end])..])
    ensures Kept(old(fdt.buf[..]), fdt.buf[..], fdt.offStruct)
  {
    hide Kept, Editable, Pos, Spliced, Count, Stream, Means, NodeAt;
    ghost var h, data := fdt.Head(), fdt.buf[..];
    EditBounds(h, data, ts, items);
    KeptByNone(data, h.offStruct);
    var b := fdt.buf[fdt.offStruct..fdt.offStruct + fdt.sizeStruct];
    assert b == StructOf(h, data);
    KidsBounds(ts, n);
    PosWithin(h, data, ts, items, n.start, n.end);
    TokensRemoved(h, data, ts, items, n.start, n.end);
    var endoffset := NodeEndOffset(b, nodeoffset, ts, n);
    if endoffset < 0 {
      return endoffset;
    }
    err := SpliceStruct(fdt, fdt.offStruct + nodeoffset, endoffset - nodeoffset, 0);
  }
}
