/** Building a device tree blob from the beginning: the structure block grows up from the reserve map, the
    strings block grows down from the end of the buffer, and finishing moves the strings behind the structure. */
module FdtWriter {

  import opened FdtFormat
  import opened FdtTree
  import opened FdtBlob

  // ---- the state while writing ----

  function ReserveBytes(r: Reserve): (b: seq<Byte>)
    requires ReserveOk(r)
    ensures |b| == 16
  {
    WordBytes(r.address / 0x1_0000_0000) + WordBytes(r.address % 0x1_0000_0000)
    + WordBytes(r.size / 0x1_0000_0000) + WordBytes(r.size % 0x1_0000_0000)
  }

  /** What is stored for an entry is read as the entry. */
  lemma ReserveReads(data: seq<Byte>, p: nat, r: Reserve)
    requires ReserveOk(r) && p + 16 <= |data| && data[p..p + 16] == ReserveBytes(r)
    ensures EntryAt(data, p, r)
  {
    hide Word, WordBytes;
    var b := ReserveBytes(r);
    SubSlice(data, p, p + 16, 0, 4);
    SubSlice(data, p, p + 16, 4, 8);
    SubSlice(data, p, p + 16, 8, 12);
    SubSlice(data, p, p + 16, 12, 16);
    assert b[0..4] == WordBytes(r.address / 0x1_0000_0000) && b[4..8] == WordBytes(r.address % 0x1_0000_0000);
    assert b[8..12] == WordBytes(r.size / 0x1_0000_0000) && b[12..16] == WordBytes(r.size % 0x1_0000_0000);
    WordAt(data, p, r.address / 0x1_0000_0000);
    WordAt(data, p + 4, r.address % 0x1_0000_0000);
    WordAt(data, p + 8, r.size / 0x1_0000_0000);
    WordAt(data, p + 12, r.size % 0x1_0000_0000);
  }

  /** While writing, a property refers to its name by its distance from the end of the buffer, stored as a
      negative number of 32 bits. */
  function Rebased(t: Token, size: nat): Token {
    if t.Prop? then Prop((t.nameoff + size) % 0x1_0000_0000, t.value) else t
  }

  function RebasedAll(ts: seq<Token>, size: nat): (r: seq<Token>)
    ensures |r| == |ts| && forall i :: 0 <= i < |ts| ==> r[i] == Rebased(ts[i], size)
  {
    seq(|ts|, i requires 0 <= i < |ts| => Rebased(ts[i], size))
  }

  /** A name lies within the strings written so far. */
  predicate OffsetOk(t: Token, size: nat) {
    t.Prop? ==> 0x1_0000_0000 - size <= t.nameoff < 0x1_0000_0000
  }

  ghost predicate NoEnd(ts: seq<Token>) {
    forall i :: 0 <= i < |ts| ==> ts[i] != End
  }

  ghost predicate OffsetsOk(ts: seq<Token>, size: nat) {
    forall i :: 0 <= i < |ts| ==> OffsetOk(ts[i], size)
  }

  /** The bytes from lo to hi are the tokens, and with the strings they mean the items. */
  ghost predicate Written(data: seq<Byte>, lo: nat, hi: nat, strings: nat, end: nat, ts: seq<Token>, items: seq<Item>) {
    && lo <= hi <= strings <= end <= |data|
    && Stream(data[lo..hi], ts) && NoEnd(ts) && OffsetsOk(ts, end - strings)
    && Means(data[strings..end], RebasedAll(ts, end - strings), items)
  }

  /** The blob is being written; so far it holds these entries and items. */
  ghost predicate Layout(h: Header, data: seq<Byte>, rs: seq<Reserve>, ts: seq<Token>, items: seq<Item>) {
    && h.magic == Unfinished && h.version == LAST_SUPPORTED_VERSION
    && h.lastCompVersion <= LAST_SUPPORTED_VERSION && h.offRsv == 48
    && h.totalsize <= |data| && h.totalsize < 0x8000_0000
    && h.sizeStruct + h.offStruct <= h.totalsize - h.sizeStrings
    && h.offStruct == 48 + 16 * |rs| && MapAt(data, 48, rs)
    && Written(data, h.offStruct, h.offStruct + h.sizeStruct, h.totalsize - h.sizeStrings, h.totalsize, ts, items)
  }

  ghost predicate Writing(fdt: Blob, rs: seq<Reserve>, ts: seq<Token>, items: seq<Item>)
    reads fdt, fdt.buf
  {
    Layout(fdt.Head(), fdt.buf[..], rs, ts, items)
  }

  // ---- steps on the memory ----

  lemma RebasedConcat(ts: seq<Token>, us: seq<Token>, size: nat)
    ensures RebasedAll(ts + us, size) == RebasedAll(ts, size) + RebasedAll(us, size)
  {
  }

  /** One more token behind the others. */
  lemma TokenAppended(data: seq<Byte>, data': seq<Byte>, lo: nat, hi: nat, strings: nat, end: nat,
                      ts: seq<Token>, items: seq<Item>, t: Token, item: Item)
    requires Written(data, lo, hi, strings, end, ts, items)
    requires hi + Len(t) <= strings && |data'| == |data|
    requires data'[lo..hi] == data[lo..hi] && data'[strings..end] == data[strings..end]
    requires Encodes(data'[hi..hi + Len(t)], t) && t != End && OffsetOk(t, end - strings)
    requires Matches(data[strings..end], Rebased(t, end - strings), item)
    ensures Written(data', lo, hi + Len(t), strings, end, ts + [t], items + [item])
  {
    hide Encodes, Matches;
    var n := Len(t);
    assert data'[lo..hi + n] == data[lo..hi] + data'[hi..hi + n];
    StreamOne(data'[hi..hi + n], t);
    StreamConcat(data[lo..hi], ts, data'[hi..hi + n], [t]);
    var size := end - strings;
    RebasedConcat(ts, [t], size);
    assert RebasedAll([t], size) == [Rebased(t, size)];
    MeansOne(data[strings..end], Rebased(t, size), item);
    MeansConcat(data[strings..end], RebasedAll(ts, size), items, [Rebased(t, size)], [item]);
  }

  /** The same, for bytes put behind the others; they need not reach into the padding. */
  lemma TokenEmitted(data: seq<Byte>, lo: nat, hi: nat, strings: nat, end: nat, ts: seq<Token>, items: seq<Item>,
                     src: seq<Byte>, t: Token, item: Item)
    requires Written(data, lo, hi, strings, end, ts, items)
    requires |src| <= Len(t) && hi + Len(t) <= strings
    requires Encodes(Put(data, hi, src)[hi..hi + Len(t)], t) && t != End && OffsetOk(t, end - strings)
    requires Matches(data[strings..end], Rebased(t, end - strings), item)
    ensures Written(Put(data, hi, src), lo, hi + Len(t), strings, end, ts + [t], items + [item])
  {
    hide Encodes, Matches, Stream, Means;
    PutSlices(data, hi, src);
    TokenAppended(data, Put(data, hi, src), lo, hi, strings, end, ts, items, t, item);
  }

  lemma NameShifts(x: seq<Byte>, strings: seq<Byte>, off: nat, name: Name)
    requires NameAt(strings, off, name)
    ensures NameAt(x + strings, |x| + off, name)
  {
    assert (x + strings)[|x| + off..|x| + off + |name|] == strings[off..off + |name|];
  }

  lemma RebaseOffset(off: nat, size: nat)
    requires size < 0x1_0000_0000 && 0x1_0000_0000 - size <= off < 0x1_0000_0000
    ensures (off + size) % 0x1_0000_0000 == off + size - 0x1_0000_0000
  {
  }

  lemma MatchShifts(x: seq<Byte>, strings: seq<Byte>, t: Token, item: Item)
    requires |x| + |strings| < 0x8000_0000
    requires OffsetOk(t, |strings|) && Matches(strings, Rebased(t, |strings|), item)
    ensures OffsetOk(t, |x| + |strings|) && Matches(x + strings, Rebased(t, |x| + |strings|), item)
  {
    if t.Prop? {
      RebaseOffset(t.nameoff, |strings|);
      RebaseOffset(t.nameoff, |x| + |strings|);
      NameShifts(x, strings, Rebased(t, |strings|).nameoff, item.prop.name);
    }
  }

  lemma RebasedTail(ts: seq<Token>, size: nat)
    requires ts != []
    ensures RebasedAll(ts, size)[0] == Rebased(ts[0], size)
    ensures RebasedAll(ts, size)[1..] == RebasedAll(ts[1..], size)
  {
  }

  lemma OffsetsOkTail(ts: seq<Token>, size: nat)
    requires ts != []
    ensures OffsetsOk(ts, size) <==> OffsetOk(ts[0], size) && OffsetsOk(ts[1..], size)
  {
    if OffsetOk(ts[0], size) && OffsetsOk(ts[1..], size) {
      forall i | 0 <= i < |ts| ensures OffsetOk(ts[i], size) {
        assert i > 0 ==> ts[i] == ts[1..][i - 1];
      }
    }
  }

  /** Strings written in front of the others move no name relative to the end. */
  lemma {:induction false} MeansShifts(x: seq<Byte>, strings: seq<Byte>, ts: seq<Token>, items: seq<Item>)
    requires |x| + |strings| < 0x8000_0000
    requires OffsetsOk(ts, |strings|) && Means(strings, RebasedAll(ts, |strings|), items)
    ensures OffsetsOk(ts, |x| + |strings|) && Means(x + strings, RebasedAll(ts, |x| + |strings|), items)
  {
    var size, size' := |strings|, |x| + |strings|;
    if ts != [] {
      hide OffsetsOk, Matches;
      OffsetsOkTail(ts, size);
      OffsetsOkTail(ts, size');
      RebasedTail(ts, size);
      RebasedTail(ts, size');
      if ts[0] == Nop {
        MeansShifts(x, strings, ts[1..], items);
      } else {
        MatchShifts(x, strings, ts[0], items[0]);
        MeansShifts(x, strings, ts[1..], items[1..]);
      }
    }
  }

  lemma StringPrepended(data: seq<Byte>, data': seq<Byte>, lo: nat, hi: nat, strings: nat, end: nat,
                        ts: seq<Token>, items: seq<Item>, s: Name)
    requires Written(data, lo, hi, strings, end, ts, items) && end < 0x8000_0000
    requires hi + |s| + 1 <= strings && data' == Put(data, strings - |s| - 1, Terminated(s))
    ensures Written(data', lo, hi, strings - |s| - 1, end, ts, items)
  {
    hide Stream, Means, OffsetsOk, Put, Terminated;
    PrependSlices(data, lo, hi, strings, end, s);
    MeansShifts(Terminated(s), data[strings..end], ts, items);
  }

  lemma PrependSlices(data: seq<Byte>, lo: nat, hi: nat, strings: nat, end: nat, s: Name)
    requires lo <= hi && hi + |s| + 1 <= strings <= end <= |data|
    ensures
      var off := strings - |s| - 1;
      var data' := Put(data, off, Terminated(s));
      && |Terminated(s)| == |s| + 1 && |data'| == |data| && data'[lo..hi] == data[lo..hi]
      && data'[off..end] == Terminated(s) + data[strings..end]
  {
    var off := strings - |s| - 1;
    var data' := Put(data, off, Terminated(s));
    PutSlices(data, off, Terminated(s));
    assert data'[lo..hi] == data[lo..hi];
    assert data'[off..end] == data'[off..strings] + data'[strings..end];
  }

  // ---- the functions ----

  /** _fdt_grab_space: room for len more bytes of structure, or -1. */
  method GrabSpace(fdt: Blob, len: nat) returns (offset: int)
    modifies fdt`sizeStruct
    ensures
      var room := fdt.totalsize - fdt.offStruct - fdt.sizeStrings;
      if old(fdt.sizeStruct) + len > room then offset == -1 && fdt.sizeStruct == old(fdt.sizeStruct)
      else offset == fdt.offStruct + old(fdt.sizeStruct) && fdt.sizeStruct == old(fdt.sizeStruct) + len
  {
    var size := fdt.sizeStruct;
    var spaceleft := fdt.totalsize - fdt.offStruct - fdt.sizeStrings;
    if size + len > spaceleft {
      return -1;
    }
    fdt.sizeStruct := size + len;
    return fdt.offStruct + size;
  }

  /** fdt_create. */
  method Create(fdt: Blob, bufsize: nat) returns (err: int)
    requires bufsize <= fdt.buf.Length && bufsize < 0x8000_0000
    modifies fdt, fdt.buf
    ensures bufsize < HEADER_SIZE <==> err == -NOSPACE
    ensures err == 0 || err == -NOSPACE
    ensures err == 0 ==>
      fdt.Head() == Header(Unfinished, LAST_SUPPORTED_VERSION, FIRST_SUPPORTED_VERSION, bufsize, 48, 48, 0, bufsize, 0)
    ensures err == 0 && 48 <= bufsize ==> Writing(fdt, [], [], [])
    ensures err != 0 ==> fdt.Head() == old(fdt.Head()) && fdt.buf[..] == old(fdt.buf[..])
  {
    if bufsize < HEADER_SIZE {
      return -NOSPACE;
    }
    forall i | 0 <= i < bufsize {
      fdt.buf[i] := 0;
    }
    fdt.magic := Unfinished;
    fdt.version := LAST_SUPPORTED_VERSION;
    fdt.lastCompVersion := FIRST_SUPPORTED_VERSION;
    fdt.totalsize := bufsize;
    fdt.offRsv := 48;
    fdt.offStruct := fdt.offRsv;
    fdt.offStrings := bufsize;
    fdt.sizeStruct := 0;
    fdt.sizeStrings := 0;
    assert RebasedAll([], 0) == [];
    assert fdt.buf[..][bufsize..bufsize] == [];
    return 0;
  }

  lemma Bounds(h: Header, data: seq<Byte>, rs: seq<Reserve>, ts: seq<Token>, items: seq<Item>)
    requires Layout(h, data, rs, ts, items)
    ensures h.magic == Unfinished && h.offStruct + h.sizeStruct <= h.totalsize - h.sizeStrings
    ensures h.totalsize <= |data| && h.totalsize < 0x8000_0000 && h.offStruct >= 48
  {
    hide Written;
  }

  /** fdt_add_reservemap_entry, which the code refuses once there is structure. */
  method AddReserve(fdt: Blob, r: Reserve, ghost rs: seq<Reserve>, ghost ts: seq<Token>, ghost items: seq<Item>)
    returns (err: int)
    requires fdt.offStruct <= fdt.totalsize ==> Writing(fdt, rs, ts, items)
    requires ReserveOk(r) && (fdt.sizeStruct == 0 ==> fdt.sizeStrings == 0)
    modifies fdt`offStruct, fdt.buf
    ensures err == if fdt.sizeStruct != 0 then -BADSTATE
                   else if old(fdt.offStruct) + 16 > fdt.totalsize then -NOSPACE else 0
    ensures err == 0 ==> ts == [] && items == [] && Writing(fdt, rs + [r], [], [])
    ensures err == 0 ==> fdt.offStruct == old(fdt.offStruct) + 16
    ensures err != 0 ==> fdt.Head() == old(fdt.Head()) && fdt.buf[..] == old(fdt.buf[..])
  {
    hide Layout;
    if fdt.sizeStruct != 0 {
      return -BADSTATE;
    }
    var offset := fdt.offStruct;
    if offset + 16 > fdt.totalsize {
      return -NOSPACE;
    }
    Bounds(fdt.Head(), fdt.buf[..], rs, ts, items);
    NothingYet(fdt.Head(), fdt.buf[..], rs, ts, items);
    ReserveAdded(fdt.Head(), fdt.buf[..], rs, r);
    Copy(fdt.buf, offset, ReserveBytes(r));
    fdt.offStruct := offset + 16;
    return 0;
  }

  lemma NothingYet(h: Header, data: seq<Byte>, rs: seq<Reserve>, ts: seq<Token>, items: seq<Item>)
    requires Layout(h, data, rs, ts, items) && h.sizeStruct == 0
    ensures ts == [] && items == []
  {
    hide Encodes;
    StreamLen(data[h.offStruct..h.offStruct + h.sizeStruct], ts);
    TotalLenAligned(ts);
    assert RebasedAll(ts, h.sizeStrings) == [];
  }

  /** fdt_finish_reservemap. */
  method FinishReserveMap(fdt: Blob, ghost rs: seq<Reserve>, ghost ts: seq<Token>, ghost items: seq<Item>)
    returns (err: int)
    requires fdt.offStruct <= fdt.totalsize ==> Writing(fdt, rs, ts, items)
    requires fdt.sizeStruct == 0 ==> fdt.sizeStrings == 0
    modifies fdt`offStruct, fdt.buf
    ensures err == if fdt.sizeStruct != 0 then -BADSTATE
                   else if old(fdt.offStruct) + 16 > fdt.totalsize then -NOSPACE else 0
    ensures err == 0 ==> ts == [] && items == [] && Writing(fdt, rs + [Reserve(0, 0)], [], [])
    ensures err == 0 ==> fdt.offStruct == old(fdt.offStruct) + 16
    ensures err != 0 ==> fdt.Head() == old(fdt.Head()) && fdt.buf[..] == old(fdt.buf[..])
  {
    err := AddReserve(fdt, Reserve(0, 0), rs, ts, items);
  }

  lemma ReserveAdded(h: Header, data: seq<Byte>, rs: seq<Reserve>, r: Reserve)
    requires Layout(h, data, rs, [], []) && ReserveOk(r) && h.sizeStruct == 0 && h.sizeStrings == 0
    requires h.offStruct + 16 <= h.totalsize
    ensures Layout(h.(offStruct := h.offStruct + 16), Put(data, h.offStruct, ReserveBytes(r)), rs + [r], [], [])
  {
    hide MapAt, EntryAt, ReserveBytes;
    var offset, data' := h.offStruct, Put(data, h.offStruct, ReserveBytes(r));
    PutSlices(data, offset, ReserveBytes(r));
    ReserveReads(data', offset, r);
    MapMoved(data, 48, data', 48, rs);
    MapExtended(data', rs, r);
    assert data'[offset + 16..offset + 16] == [] && data'[h.totalsize..h.totalsize] == data[h.totalsize..h.totalsize] == [];
  }

  lemma MapExtended(data: seq<Byte>, rs: seq<Reserve>, r: Reserve)
    requires MapAt(data, 48, rs) && EntryAt(data, 48 + 16 * |rs|, r)
    ensures MapAt(data, 48, rs + [r])
  {
  }

  /** A token put behind the others. */
  lemma LayoutEmitted(h: Header, data: seq<Byte>, rs: seq<Reserve>, ts: seq<Token>, items: seq<Item>,
                      src: seq<Byte>, t: Token, item: Item)
    requires Layout(h, data, rs, ts, items)
    requires |src| <= Len(t) && h.offStruct + h.sizeStruct + Len(t) <= h.totalsize - h.sizeStrings
    requires var hi := h.offStruct + h.sizeStruct; Encodes(Put(data, hi, src)[hi..hi + Len(t)], t)
    requires t != End && OffsetOk(t, h.sizeStrings)
    requires Matches(data[h.totalsize - h.sizeStrings..h.totalsize], Rebased(t, h.sizeStrings), item)
    ensures Layout(h.(sizeStruct := h.sizeStruct + Len(t)), Put(data, h.offStruct + h.sizeStruct, src),
        rs, ts + [t], items + [item])
  {
    hide Encodes, Matches, Written, Rebased, OffsetOk, MapAt;
    var hi := h.offStruct + h.sizeStruct;
    TokenEmitted(data, h.offStruct, hi, h.totalsize - h.sizeStrings, h.totalsize, ts, items, src, t, item);
    PutSlices(data, hi, src);
    assert Put(data, hi, src)[48..h.offStruct] == data[48..h.offStruct];
    MapMoved(data, 48, Put(data, hi, src), 48, rs);
  }

  /** fdt_begin_node. */
  method BeginNode(fdt: Blob, name: Name, ghost rs: seq<Reserve>, ghost ts: seq<Token>, ghost items: seq<Item>)
    returns (err: int)
    requires Writing(fdt, rs, ts, items) && 0 !in name && |name| < 0x8000_0000
    modifies fdt`sizeStruct, fdt.buf
    ensures err == if old(fdt.sizeStruct) + Len(FdtFormat.BeginNode(name)) > fdt.totalsize - fdt.offStruct - fdt.sizeStrings
                   then -NOSPACE else 0
    ensures err == 0 ==> fdt.sizeStruct == old(fdt.sizeStruct) + Len(FdtFormat.BeginNode(name))
    ensures if err == 0 then Writing(fdt, rs, ts + [FdtFormat.BeginNode(name)], items + [Begin(name)])
            else Writing(fdt, rs, ts, items)
  {
    hide Layout, Len, Align, Put;
    ghost var h, data := fdt.Head(), fdt.buf[..];
    Bounds(h, data, rs, ts, items);
    var namelen := |name| + 1;
    BeginLen(name);
    var nh := GrabSpace(fdt, 4 + Align(namelen));
    if nh < 0 {
      return -NOSPACE;
    }
    BeginEncoded(data, nh, name);
    LayoutEmitted(h, data, rs, ts, items, WordBytes(BEGIN_NODE) + Terminated(name), FdtFormat.BeginNode(name), Begin(name));
    Copy(fdt.buf, nh, WordBytes(BEGIN_NODE));
    Copy(fdt.buf, nh + 4, Terminated(name));
    PutPut(data, nh, WordBytes(BEGIN_NODE), Terminated(name));
    return 0;
  }

  lemma BeginLen(name: Name)
    ensures Len(FdtFormat.BeginNode(name)) == 4 + Align(|name| + 1)
  {
  }

  lemma BeginEncoded(data: seq<Byte>, hi: nat, name: Name)
    requires 0 !in name && hi + Len(FdtFormat.BeginNode(name)) <= |data|
    ensures
      var t := FdtFormat.BeginNode(name);
      Encodes(Put(data, hi, WordBytes(BEGIN_NODE) + Terminated(name))[hi..hi + Len(t)], t)
  {
    hide Encodes;
    var n, src := Len(FdtFormat.BeginNode(name)), WordBytes(BEGIN_NODE) + Terminated(name);
    var data' := Put(data, hi, src);
    var b := data'[hi..hi + n];
    PutSlices(data, hi, src);
    SubSlice(data', hi, hi + n, 0, |src|);
    assert b[..4] == src[..4] && b[4..4 + |name| + 1] == src[4..];
    EncodesBegin(b, name);
  }

  /** fdt_end_node. */
  method EndNode(fdt: Blob, ghost rs: seq<Reserve>, ghost ts: seq<Token>, ghost items: seq<Item>) returns (err: int)
    requires Writing(fdt, rs, ts, items)
    modifies fdt`sizeStruct, fdt.buf
    ensures err == if old(fdt.sizeStruct) + 4 > fdt.totalsize - fdt.offStruct - fdt.sizeStrings then -NOSPACE else 0
    ensures err == 0 ==> fdt.sizeStruct == old(fdt.sizeStruct) + 4
    ensures if err == 0 then Writing(fdt, rs, ts + [FdtFormat.EndNode], items + [EndOf]) else Writing(fdt, rs, ts, items)
  {
    hide Layout, Put;
    ghost var h, data := fdt.Head(), fdt.buf[..];
    Bounds(h, data, rs, ts, items);
    var en := GrabSpace(fdt, 4);
    if en < 0 {
      return -NOSPACE;
    }
    BareEncoded(data, en, FdtFormat.EndNode);
    LayoutEmitted(h, data, rs, ts, items, WordBytes(END_NODE), FdtFormat.EndNode, EndOf);
    Copy(fdt.buf, en, WordBytes(END_NODE));
    return 0;
  }

  lemma BareEncoded(data: seq<Byte>, hi: nat, t: Token)
    requires hi + 4 <= |data| && (t.EndNode? || t.Nop? || t.End?)
    ensures Len(t) == 4 && Encodes(Put(data, hi, WordBytes(Tag(t)))[hi..hi + 4], t)
  {
    hide Encodes;
    PutSlices(data, hi, WordBytes(Tag(t)));
    EncodesBare(WordBytes(Tag(t)), t);
  }

  /** The strings written so far. */
  ghost function StringsOf(h: Header, data: seq<Byte>): seq<Byte>
    requires h.sizeStrings <= h.totalsize <= |data|
  {
    data[h.totalsize - h.sizeStrings..h.totalsize]
  }

  lemma LayoutPrepended(h: Header, data: seq<Byte>, rs: seq<Reserve>, ts: seq<Token>, items: seq<Item>, s: Name)
    requires Layout(h, data, rs, ts, items) && 0 !in s
    requires h.offStruct + h.sizeStruct + |s| + 1 <= h.totalsize - h.sizeStrings
    ensures
      var n := h.sizeStrings + |s| + 1;
      var h', data' := h.(sizeStrings := n), Put(data, h.totalsize - n, Terminated(s));
      && Layout(h', data', rs, ts, items) && NameAt(StringsOf(h', data'), 0, s)
  {
    hide MapAt, Written;
    var strings := h.totalsize - h.sizeStrings;
    var off := strings - |s| - 1;
    var data' := Put(data, off, Terminated(s));
    StringPrepended(data, data', h.offStruct, h.offStruct + h.sizeStruct, strings, h.totalsize, ts, items, s);
    PutSlices(data, off, Terminated(s));
    assert data'[48..h.offStruct] == data[48..h.offStruct];
    MapMoved(data, 48, data', 48, rs);
    SubSlice(data', off, h.totalsize, 0, |s| + 1);
    NameIsTerminated(data'[off..h.totalsize], 0, s);
  }

  /** _fdt_find_add_string: the distance of the name from the end of the buffer, negative, or 0 if there is no
      room. */
  method FindAddString(fdt: Blob, s: Name, ghost rs: seq<Reserve>, ghost ts: seq<Token>, ghost items: seq<Item>)
    returns (offset: int)
    requires Writing(fdt, rs, ts, items) && 0 !in s
    modifies fdt`sizeStrings, fdt.buf
    ensures Writing(fdt, rs, ts, items)
    ensures old(fdt.sizeStrings <= fdt.totalsize <= fdt.buf.Length)
    ensures
      var room := old(NameRoom(StringsOf(fdt.Head(), fdt.buf[..]), s));
      && (offset == 0 <==> room > 0 && old(fdt.offStruct + fdt.sizeStruct + fdt.sizeStrings) + room > fdt.totalsize)
      && fdt.sizeStrings == old(fdt.sizeStrings) + if offset == 0 then 0 else room
    ensures offset == 0 || (offset < 0 <= offset + fdt.sizeStrings && fdt.sizeStrings <= fdt.totalsize <= fdt.buf.Length
                            && NameAt(StringsOf(fdt.Head(), fdt.buf[..]), fdt.sizeStrings + offset, s))
  {
    hide Layout, Put, NameAt;
    Bounds(fdt.Head(), fdt.buf[..], rs, ts, items);
    var strtabsize: int := fdt.sizeStrings;
    var p := FindString(fdt.buf[fdt.totalsize - strtabsize..fdt.totalsize], s);
    if p >= 0 {
      FoundInside(fdt.buf[fdt.totalsize - strtabsize..fdt.totalsize], p, s);
      return p - strtabsize;
    }
    var len: int := |s| + 1;
    offset := -strtabsize - len;
    var structTop := fdt.offStruct + fdt.sizeStruct;
    if fdt.totalsize + offset < structTop {
      return 0;
    }
    LayoutPrepended(fdt.Head(), fdt.buf[..], rs, ts, items, s);
    Copy(fdt.buf, fdt.totalsize + offset, Terminated(s));
    fdt.sizeStrings := strtabsize + len;
  }

  lemma FoundInside(strings: seq<Byte>, p: nat, s: Name)
    requires NameAt(strings, p, s)
    ensures p < |strings|
  {
  }

  /** fdt_property. When there is no room for the property itself, its name may have been added all the same. */
  method WriteProperty(fdt: Blob, name: Name, val: seq<Byte>,
                       ghost rs: seq<Reserve>, ghost ts: seq<Token>, ghost items: seq<Item>)
    returns (err: int, ghost nameoff: nat)
    requires Writing(fdt, rs, ts, items) && 0 !in name && |val| < 0x8000_0000
    modifies fdt`sizeStruct, fdt`sizeStrings, fdt.buf
    ensures err == 0 || err == -NOSPACE
    ensures if err == 0 then Writing(fdt, rs, ts + [Prop(nameoff, val)], items + [Has(Property(name, val))])
            else Writing(fdt, rs, ts, items)
    ensures old(fdt.sizeStrings <= fdt.totalsize <= fdt.buf.Length)
    ensures
      var needed := old(NameRoom(StringsOf(fdt.Head(), fdt.buf[..]), name)) + Len(Prop(0, val));
      && (err == -NOSPACE <==> old(fdt.offStruct + fdt.sizeStruct + fdt.sizeStrings) + needed > fdt.totalsize)
      && (err == 0 ==> fdt.sizeStruct + fdt.sizeStrings == old(fdt.sizeStruct + fdt.sizeStrings) + needed)
  {
    hide Layout, Put, NameAt, Len, Align, WordBytes, NameRoom;
    Bounds(fdt.Head(), fdt.buf[..], rs, ts, items);
    nameoff := 0;
    var off := FindAddString(fdt, name, rs, ts, items);
    PropLen(0, val);
    if off == 0 {
      return -NOSPACE, 0;
    }
    ghost var h, data := fdt.Head(), fdt.buf[..];
    Bounds(h, data, rs, ts, items);
    var prop := GrabSpace(fdt, 12 + Align(|val|));
    if prop < 0 {
      return -NOSPACE, 0;
    }
    var raw := 0x1_0000_0000 + off;
    nameoff := raw;
    PropLen(raw, val);
    ghost var src := WordBytes(PROP) + WordBytes(|val|) + WordBytes(raw) + val;
    PropEncoded(data, prop, raw, val);
    RebaseOffset(raw, h.sizeStrings);
    LayoutEmitted(h, data, rs, ts, items, src, Prop(raw, val), Has(Property(name, val)));
    Copy(fdt.buf, prop, WordBytes(PROP));
    Copy(fdt.buf, prop + 8, WordBytes(raw));
    Copy(fdt.buf, prop + 4, WordBytes(|val|));
    Copy(fdt.buf, prop + 12, val);
    FourPuts(data, prop, WordBytes(PROP), WordBytes(|val|), WordBytes(raw), val);
    err := 0;
  }

  lemma PropLen(nameoff: nat, val: seq<Byte>)
    ensures Len(Prop(nameoff, val)) == 12 + Align(|val|) && 12 + |val| <= Len(Prop(nameoff, val))
  {
  }

  // ---- finishing ----

  /** A complete blob: blocks in order and without gaps, holding these entries and items. */
  ghost predicate Finished(h: Header, data: seq<Byte>, rs: seq<Reserve>, ts: seq<Token>, items: seq<Item>) {
    && h.magic == Complete && h.version == LAST_SUPPORTED_VERSION && h.lastCompVersion <= LAST_SUPPORTED_VERSION && h.offRsv == 48
    && h.offStruct == 48 + 16 * |rs| && h.offStrings == h.offStruct + h.sizeStruct
    && h.totalsize == h.offStrings + h.sizeStrings && h.totalsize <= |data| && h.totalsize < 0x8000_0000
    && MapAt(data, 48, rs) && ts != [] && ts[|ts| - 1] == End
    && Stream(data[h.offStruct..h.offStrings], ts) && Means(data[h.offStrings..h.totalsize], ts, items)
  }

  /** While the offsets are corrected: the tokens before k already count from the start of the strings block. */
  ghost predicate Correcting(h: Header, data: seq<Byte>, rs: seq<Reserve>, ts: seq<Token>, items: seq<Item>, k: nat) {
    && h.version == LAST_SUPPORTED_VERSION && h.lastCompVersion <= LAST_SUPPORTED_VERSION && h.offRsv == 48
    && h.offStruct == 48 + 16 * |rs| && h.offStrings == h.offStruct + h.sizeStruct
    && h.offStrings + h.sizeStrings <= h.totalsize <= |data| && h.totalsize < 0x8000_0000
    && MapAt(data, 48, rs)
    && k <= |ts| && NoEnd(ts) && OffsetsOk(ts, h.sizeStrings)
    && Stream(data[h.offStruct..h.offStrings], Mixed(ts, h.sizeStrings, k))
    && Means(data[h.offStrings..h.offStrings + h.sizeStrings], RebasedAll(ts, h.sizeStrings), items)
  }

  function Mixed(ts: seq<Token>, size: nat, k: nat): (us: seq<Token>)
    requires k <= |ts|
    ensures |us| == |ts| + 1 && us[|ts|] == End
    ensures forall i :: 0 <= i < |ts| ==> us[i] == if i < k then Rebased(ts[i], size) else ts[i]
  {
    RebasedAll(ts[..k], size) + ts[k..] + [End]
  }

  /** The terminator is written and the strings are moved down behind the structure. */
  lemma StringsMoved(h: Header, data: seq<Byte>, rs: seq<Reserve>, ts: seq<Token>, items: seq<Item>)
    requires Layout(h, data, rs, ts, items)
    requires h.offStruct + h.sizeStruct + 4 <= h.totalsize - h.sizeStrings
    ensures
      var hi := h.offStruct + h.sizeStruct;
      var data1 := Put(data, hi, WordBytes(END));
      var data2 := Put(data1, hi + 4, data1[h.totalsize - h.sizeStrings..h.totalsize]);
      Correcting(h.(sizeStruct := h.sizeStruct + 4, offStrings := hi + 4), data2, rs, ts, items, 0)
  {
    hide MapAt, Stream, Means, NoEnd, OffsetsOk;
    var hi, oldOff := h.offStruct + h.sizeStruct, h.totalsize - h.sizeStrings;
    var data1 := Put(data, hi, WordBytes(END));
    var strings := data1[oldOff..h.totalsize];
    var data2 := Put(data1, hi + 4, strings);
    PutSlices(data, hi, WordBytes(END));
    PutSlices(data1, hi + 4, strings);
    BareEncoded(data, hi, End);
    StreamOne(data1[hi..hi + 4], End);
    StreamConcat(data[h.offStruct..hi], ts, data1[hi..hi + 4], [End]);
    assert data2[h.offStruct..hi + 4] == data1[h.offStruct..hi + 4] == data1[h.offStruct..hi] + data1[hi..hi + 4];
    assert data1[h.offStruct..hi] == data[h.offStruct..hi];
    assert data2[48..h.offStruct] == data1[48..h.offStruct] == data[48..h.offStruct];
    MapMoved(data, 48, data2, 48, rs);
    assert Mixed(ts, h.sizeStrings, 0) == ts + [End];
  }

  /** One more offset corrected, in place. */
  lemma OffsetCorrected(h: Header, data: seq<Byte>, rs: seq<Reserve>, ts: seq<Token>, items: seq<Item>, k: nat)
    requires Correcting(h, data, rs, ts, items, k) && k < |ts| && ts[k].Prop?
    ensures
      var p := h.offStruct + Pos(Mixed(ts, h.sizeStrings, k), k) + 8;
      && p + 4 <= h.offStrings && Word(data, p) == ts[k].nameoff
      && Correcting(h, Put(data, p, WordBytes((ts[k].nameoff + h.sizeStrings) % 0x1_0000_0000)), rs, ts, items, k + 1)
  {
    hide MapAt, Stream, Means, NoEnd, OffsetsOk, Pos, Word, WordBytes;
    var b, us := data[h.offStruct..h.offStrings], Mixed(ts, h.sizeStrings, k);
    var off := (ts[k].nameoff + h.sizeStrings) % 0x1_0000_0000;
    Renamed(b, us, k, off);
    var p := h.offStruct + Pos(us, k) + 8;
    WordIn(data, h.offStruct, h.sizeStruct, Pos(us, k) + 8);
    PutWithin(data, p, WordBytes(off), h.offStruct, h.offStrings);
    PutSlices(data, p, WordBytes(off));
    var data' := Put(data, p, WordBytes(off));
    assert data'[48..h.offStruct] == data[48..h.offStruct];
    MapMoved(data, 48, data', 48, rs);
    assert data'[h.offStrings..h.offStrings + h.sizeStrings] == data[h.offStrings..h.offStrings + h.sizeStrings];
    assert us[k := Prop(off, ts[k].value)] == Mixed(ts, h.sizeStrings, k + 1);
  }

  lemma PosMixed(ts: seq<Token>, size: nat, k: nat)
    requires k < |ts|
    ensures Pos(Mixed(ts, size, k + 1), k + 1) == Pos(Mixed(ts, size, k), k) + Len(ts[k])
  {
    var us, vs := Mixed(ts, size, k), Mixed(ts, size, k + 1);
    PosNext(vs, k);
    assert vs[..k] == us[..k];
    RebasedLen(ts[k], size);
  }

  lemma RebasedLen(t: Token, size: nat)
    ensures Len(Rebased(t, size)) == Len(t)
  {
  }

  /** Tokens that carry no offset need no correction. */
  lemma NothingToCorrect(h: Header, data: seq<Byte>, rs: seq<Reserve>, ts: seq<Token>, items: seq<Item>, k: nat)
    requires Correcting(h, data, rs, ts, items, k) && k < |ts| && !ts[k].Prop?
    ensures Correcting(h, data, rs, ts, items, k + 1)
  {
    hide MapAt, Stream, Means, NoEnd, OffsetsOk;
    assert Mixed(ts, h.sizeStrings, k + 1) == Mixed(ts, h.sizeStrings, k);
  }

  lemma AllCorrected(h: Header, data: seq<Byte>, rs: seq<Reserve>, ts: seq<Token>, items: seq<Item>)
    requires Correcting(h, data, rs, ts, items, |ts|)
    ensures
      Finished(h.(magic := Complete, totalsize := h.offStrings + h.sizeStrings), data, rs,
               RebasedAll(ts, h.sizeStrings) + [End], items + [Finish])
  {
    hide MapAt, Stream, NoEnd, OffsetsOk;
    assert Mixed(ts, h.sizeStrings, |ts|) == RebasedAll(ts, h.sizeStrings) + [End] by { assert ts[..|ts|] == ts; }
    var strings := data[h.offStrings..h.offStrings + h.sizeStrings];
    MeansOne(strings, End, Finish);
    MeansConcat(strings, RebasedAll(ts, h.sizeStrings), items, [End], [Finish]);
  }

  /** What fdt_next_tag reads next. */
  lemma NextToCorrect(h: Header, data: seq<Byte>, rs: seq<Reserve>, ts: seq<Token>, items: seq<Item>, k: nat)
    requires Correcting(h, data, rs, ts, items, k)
    ensures
      var us := Mixed(ts, h.sizeStrings, k);
      && h.offStruct <= h.offStrings <= h.totalsize <= |data|
      && NextTagOf(data[h.offStruct..h.offStrings], Pos(us, k)) == (Tag(us[k]), Pos(us, k) + Len(us[k]))
      && (k < |ts| ==> us[k] == ts[k] && ts[k] != End)
  {
    hide Stream, Means, OffsetsOk, NextTagOf, Pos;
    var us := Mixed(ts, h.sizeStrings, k);
    StreamAt(data[h.offStruct..h.offStrings], us, k);
    NextTagOfToken(data[h.offStruct..h.offStrings], Pos(us, k), us[k]);
  }

  /** The loop of fdt_finish: every name offset is made to count from the start of the strings block. */
  method CorrectOffsets(fdt: Blob, ghost rs: seq<Reserve>, ghost ts: seq<Token>, ghost items: seq<Item>)
    returns (next: int)
    requires Correcting(fdt.Head(), fdt.buf[..], rs, ts, items, 0)
    modifies fdt.buf
    ensures Correcting(fdt.Head(), fdt.buf[..], rs, ts, items, |ts|) && next >= 0
  {
    hide Correcting, WordBytes, Word, NextTagOf, Pos, Len, Put, Mixed, Tag;
    ghost var g := fdt.Head();
    ghost var k := 0;
    var offset := 0;
    PosStart(Mixed(ts, g.sizeStrings, 0));
    NextToCorrect(g, fdt.buf[..], rs, ts, items, k);
    var tag;
    tag, next := NextTag(fdt.buf[fdt.offStruct..fdt.offStrings], offset);
    while tag != END
      modifies fdt.buf
      invariant k <= |ts| && Correcting(g, fdt.buf[..], rs, ts, items, k)
      invariant 0 <= offset == Pos(Mixed(ts, g.sizeStrings, k), k)
      invariant g.offStruct <= g.offStrings <= g.totalsize <= fdt.buf.Length
      invariant (tag, next) == NextTagOf(fdt.buf[g.offStruct..g.offStrings], offset)
      decreases |ts| - k
    {
      NextToCorrect(g, fdt.buf[..], rs, ts, items, k);
      TagIsEnd(Mixed(ts, g.sizeStrings, k)[k]);
      if tag == PROP {
        OffsetCorrected(g, fdt.buf[..], rs, ts, items, k);
        var nameoff := Word(fdt.buf[..], fdt.offStruct + offset + 8);
        nameoff := (nameoff + fdt.sizeStrings) % 0x1_0000_0000;
        Copy(fdt.buf, fdt.offStruct + offset + 8, WordBytes(nameoff));
      } else {
        NothingToCorrect(g, fdt.buf[..], rs, ts, items, k);
      }
      PosMixed(ts, g.sizeStrings, k);
      offset := next;
      k := k + 1;
      NextToCorrect(g, fdt.buf[..], rs, ts, items, k);
      tag, next := NextTag(fdt.buf[fdt.offStruct..fdt.offStrings], offset);
    }
    NextToCorrect(g, fdt.buf[..], rs, ts, items, k);
    TagIsEnd(Mixed(ts, g.sizeStrings, k)[k]);
  }

  /** fdt_finish: what was written before is what the blob holds. */
  method FinishBlob(fdt: Blob, ghost rs: seq<Reserve>, ghost ts: seq<Token>, ghost items: seq<Item>) returns (err: int)
    requires Writing(fdt, rs, ts, items)
    modifies fdt, fdt.buf
    ensures err == if old(fdt.offStruct + fdt.sizeStruct + 4 > fdt.totalsize - fdt.sizeStrings) then -NOSPACE else 0
    ensures if err == 0 then Finished(fdt.Head(), fdt.buf[..], rs, RebasedAll(ts, fdt.sizeStrings) + [End], items + [Finish])
            else Writing(fdt, rs, ts, items)
  {
    hide Layout, Put, Correcting, Finished, WordBytes;
    ghost var h, data := fdt.Head(), fdt.buf[..];
    Bounds(h, data, rs, ts, items);
    var end := GrabSpace(fdt, 4);
    if end < 0 {
      return -NOSPACE;
    }
    StringsMoved(h, data, rs, ts, items);
    Copy(fdt.buf, end, WordBytes(END));
    var oldstroffset := fdt.totalsize - fdt.sizeStrings;
    var newstroffset := fdt.offStruct + fdt.sizeStruct;
    Move(fdt.buf, newstroffset, oldstroffset, fdt.sizeStrings);
    fdt.offStrings := newstroffset;
    var next := CorrectOffsets(fdt, rs, ts, items);
    if next < 0 {
      return next;
    }
    AllCorrected(fdt.Head(), fdt.buf[..], rs, ts, items);
    fdt.totalsize := newstroffset + fdt.sizeStrings;
    fdt.magic := Complete;
    return 0;
  }

  lemma PosStart(ts: seq<Token>)
    ensures Pos(ts, 0) == 0
  {
  }

  lemma TagIsEnd(t: Token)
    ensures Tag(t) == END <==> t == End
    ensures Tag(t) == PROP <==> t.Prop?
  {
  }
}
