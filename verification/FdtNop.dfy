/** Editing without moving anything: what is removed is overwritten with nops. */
module FdtNop {

  import opened FdtFormat
  import opened FdtTree
  import opened FdtBlob
  import opened FdtReader
  import opened FdtEdit

  function NopBytes(n: nat): (b: seq<Byte>)
    ensures |b| == 4 * n
  {
    if n == 0 then [] else NopBytes(n - 1) + WordBytes(NOP)
  }

  function Nops(n: nat): (ts: seq<Token>)
    ensures |ts| == n
  {
    if n == 0 then [] else Nops(n - 1) + [Nop]
  }

  lemma {:induction false} NopStream(n: nat)
    ensures Stream(NopBytes(n), Nops(n)) && TotalLen(Nops(n)) == 4 * n && forall strings :: Means(strings, Nops(n), [])
  {
    if n == 0 {
      NoTokens([]);
    } else {
      NopStream(n - 1);
      EncodesBare(WordBytes(NOP), Nop);
      StreamOne(WordBytes(NOP), Nop);
      StreamConcat(NopBytes(n - 1), Nops(n - 1), WordBytes(NOP), [Nop]);
      TotalLenConcat(Nops(n - 1), [Nop]);
      OneLen(Nop);
      forall strings ensures Means(strings, Nops(n), []) {
        assert [Nop][1..] == [];
        MeansConcat(strings, Nops(n - 1), [], [Nop], []);
      }
    }
  }

  /** _fdt_nop_region: whole words, as many as it takes to cover the region. */
  method NopRegion(fdt: Blob, start: nat, len: nat)
    requires start + Align(len) <= fdt.buf.Length
    modifies fdt.buf
    ensures fdt.buf[..] == Put(old(fdt.buf[..]), start, NopBytes(Align(len) / 4))
  {
    hide WordBytes, Put;
    ghost var n := 0;
    var p := start;
    NothingPut(fdt.buf[..], start);
    while p < start + len
      invariant p == start + 4 * n && 4 * n <= Align(len)
      invariant fdt.buf[..] == Put(old(fdt.buf[..]), start, NopBytes(n))
      decreases start + len + 4 - p
    {
      PutPut(old(fdt.buf[..]), start, NopBytes(n), WordBytes(NOP));
      Copy(fdt.buf, p, WordBytes(NOP));
      p := p + 4;
      n := n + 1;
    }
  }

  lemma NothingPut(data: seq<Byte>, start: nat)
    requires start <= |data|
    ensures Put(data, start, NopBytes(0)) == data
  {
  }

  /** Bytes outside a range are as before. */
  predicate ChangedWithin(data: seq<Byte>, data': seq<Byte>, lo: nat, hi: nat) {
    |data'| == |data| && forall i :: 0 <= i < |data| && !(lo <= i < hi) ==> data'[i] == data[i]
  }

  lemma PutChanges(data: seq<Byte>, off: nat, src: seq<Byte>)
    requires off + |src| <= |data|
    ensures ChangedWithin(data, Put(data, off, src), off, off + |src|)
  {
  }

  lemma ChangedBehind(data: seq<Byte>, data': seq<Byte>, lo: nat, hi: nat, n: nat)
    requires ChangedWithin(data, data', lo, hi) && n <= lo && n <= |data|
    ensures Kept(data, data', n)
  {
  }

  /** Tokens j up to k overwritten with nops: every other token keeps its bytes and its offset, and the items are
      those of a splice that removes the tokens. */
  lemma TokensNopped(h: Header, data: seq<Byte>, ts: seq<Token>, items: seq<Item>, j: nat, k: nat, n: nat)
    requires Editable(h, data, ts, items) && j <= k < |ts| && Pos(ts, j) <= Pos(ts, k) <= h.sizeStruct
    requires 4 * n == Pos(ts, k) - Pos(ts, j)
    ensures Count(ts[..j]) <= Count(ts[..k]) <= |items| && h.offStruct + Pos(ts, k) <= |data|
    ensures
      Editable(h, Put(data, h.offStruct + Pos(ts, j), NopBytes(n)), ts[..j] + Nops(n) + ts[k..],
               items[..Count(ts[..j])] + items[Count(ts[..k])..])
  {
    hide Stream, Means, Pos, Put, Count, StructOf, StringsOf, TotalLen, NopBytes, Nops;
    EditBounds(h, data, ts, items);
    var a, e := Pos(ts, j), Pos(ts, k);
    var data' := Put(data, h.offStruct + a, NopBytes(n));
    NopStream(n);
    FilledSlices(h, data, a, 0, NopBytes(n), e - a);
    PutSlices(data, h.offStruct + a, NopBytes(n));
    StreamReplace(StructOf(h, data), ts, j, k, NopBytes(n), Nops(n));
    MeansReplace(StringsOf(h, data), ts, items, j, k, Nops(n), []);
    assert items[..Count(ts[..j])] + [] + items[Count(ts[..k])..] == items[..Count(ts[..j])] + items[Count(ts[..k])..];
    LastToken(ts, j, k, Nops(n));
  }

  /** The offsets of the tokens around the nops are as before. */
  lemma OffsetsStay(ts: seq<Token>, j: nat, k: nat, n: nat, i: nat)
    requires j <= k <= |ts| && Pos(ts, j) <= Pos(ts, k) && 4 * n == Pos(ts, k) - Pos(ts, j)
    ensures
      var us := ts[..j] + Nops(n) + ts[k..];
      && (i <= j ==> Pos(us, i) == Pos(ts, i))
      && (k <= i <= |ts| ==> Pos(us, i - k + j + n) == Pos(ts, i))
  {
    hide TotalLen, Nops;
    var us := ts[..j] + Nops(n) + ts[k..];
    if i <= j {
      assert us[..i] == ts[..i];
    }
    if k <= i <= |ts| {
      NopStream(n);
      assert us[..i - k + j + n] == ts[..j] + Nops(n) + ts[k..i];
      TotalLenConcat(ts[..j] + Nops(n), ts[k..i]);
      TotalLenConcat(ts[..j], Nops(n));
      assert ts[..i] == ts[..k] + ts[k..i];
      TotalLenConcat(ts[..k], ts[k..i]);
    }
  }

  /** fdt_nop_property: the tree is the one that fdt_delprop leaves, and no offset changes. */
  method NopProperty(fdt: Blob, nodeoffset: int, name: Name, ghost ts: seq<Token>, ghost items: seq<Item>, ghost k: nat)
    returns (err: int, ghost x: nat)
    requires Holding(fdt, ts, items) && k + 1 < |ts| && ts[k].BeginNode? && nodeoffset == Pos(ts, k) && 0 !in name
    modifies fdt.buf
    ensures err == 0 ==>
      && old(Found(fdt.Head(), fdt.buf[..], ts, k, name, x)) && x < |ts| && Count(ts[..x]) < |items|
      && Holding(fdt, ts[..x] + Nops(Len(ts[x]) / 4) + ts[x + 1..], items[..Count(ts[..x])] + items[Count(ts[..x]) + 1..])
    ensures err == 0 ==>
      var p := fdt.offStruct + Pos(ts, x); ChangedWithin(old(fdt.buf[..]), fdt.buf[..], p, p + Len(ts[x]))
    ensures err != 0 ==>
      && old(Missing(fdt.Head(), fdt.buf[..], ts, k, name, x)) && x < |ts|
      && err == (if ts[x].End? then -BADSTRUCTURE else -NOTFOUND) && fdt.buf[..] == old(fdt.buf[..])
  {
    hide ChangedWithin, Editable, Pos, Put, Found, Count, Missing, NopBytes, Nops, Len, Align, Stream, Means;
    ghost var h, data := fdt.Head(), fdt.buf[..];
    EditBounds(h, data, ts, items);
    var prop, len;
    prop, len, x := GetPropertyOf(fdt, nodeoffset, name, ts, items, k);
    if prop < 0 {
      return len, x;
    }
    FoundFacts(h, data, ts, items, k, name, x);
    WholeWords(len);
    ghost var p, n := h.offStruct + Pos(ts, x), Len(ts[x]) / 4;
    assert 4 * n == Len(ts[x]) == Align(len + 12);
    TokensNopped(h, data, ts, items, x, x + 1, n);
    NopRegion(fdt, fdt.offStruct + prop, len + 12);
    assert fdt.buf[..] == Put(data, p, NopBytes(n)) && fdt.Head() == h;
    PutChanges(data, p, NopBytes(n));
    err := 0;
  }

  lemma WholeWords(len: nat)
    ensures Align(len + 12) == 12 + Align(len) && Align(len) % 4 == 0
  {
  }

  /** fdt_nop_node: the tree is the one that fdt_del_node leaves, and no offset changes. */
  method NopNode(fdt: Blob, nodeoffset: int, ghost ts: seq<Token>, ghost items: seq<Item>, ghost n: Place) returns (err: int)
    requires Holding(fdt, ts, items) && NodeAt(ts, n) && n.end < |ts| && n.start <= |ts| && nodeoffset == Pos(ts, n.start)
    modifies fdt.buf
    ensures n.start < n.end && Count(ts[..n.start]) <= Count(ts[..n.end]) <= |items| && Pos(ts, n.start) <= Pos(ts, n.end)
    ensures err == 0
    ensures Holding(fdt, ts[..n.start] + Nops((Pos(ts, n.end) - Pos(ts, n.start)) / 4) + ts[n.end..],
                    items[..Count(ts[..n.start])] + items[Count(ts[..n.end])..])
    ensures ChangedWithin(old(fdt.buf[..]), fdt.buf[..], fdt.offStruct + Pos(ts, n.start), fdt.offStruct + Pos(ts, n.end))
  {
    hide ChangedWithin, Editable, Pos, Put, Count, Stream, Means, NodeAt, NopBytes, Nops;
    ghost var h, data := fdt.Head(), fdt.buf[..];
    EditBounds(h, data, ts, items);
    var b := fdt.buf[fdt.offStruct..fdt.offStruct + fdt.sizeStruct];
    assert b == StructOf(h, data);
    KidsBounds(ts, n);
    PosWithin(h, data, ts, items, n.start, n.end);
    var endoffset := NodeEndOffset(b, nodeoffset, ts, n);
    if endoffset < 0 {
      return endoffset;
    }
    PosAligned(ts, n.start);
    PosAligned(ts, n.end);
    var len := endoffset - nodeoffset;
    AlignedLen(len);
    ghost var w := len / 4;
    TokensNopped(h, data, ts, items, n.start, n.end, w);
    NopRegion(fdt, fdt.offStruct + nodeoffset, len);
    PutChanges(data, fdt.offStruct + nodeoffset, NopBytes(w));
    err := 0;
  }

  lemma PosAligned(ts: seq<Token>, k: nat)
    requires k <= |ts|
    ensures Pos(ts, k) % 4 == 0
  {
    TotalLenAligned(ts[..k]);
  }

  lemma AlignedLen(len: nat)
    ensures len % 4 == 0 ==> Align(len) == len
  {
  }
}
