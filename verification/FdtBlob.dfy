/** A device tree blob in memory: header, memory reserve map, structure block and strings block in one buffer. */
module FdtBlob {

  import opened FdtFormat
  import opened FdtTree

  /** The magic numbers of a complete blob and of one being written. */
  datatype Magic = Complete | Unfinished

  const HEADER_SIZE := 40
  const FIRST_SUPPORTED_VERSION := 16
  const LAST_SUPPORTED_VERSION := 17

  /** The header of a blob. */
  datatype Header = Header(magic: Magic, version: nat, lastCompVersion: nat, totalsize: nat, offRsv: nat, offStruct: nat,
                           sizeStruct: nat, offStrings: nat, sizeStrings: nat)

  /** fdt_check_header. */
  function CheckHeader(h: Header): int {
    if h.magic == Complete then
      if h.version < FIRST_SUPPORTED_VERSION || h.lastCompVersion > LAST_SUPPORTED_VERSION then -BADVERSION else 0
    else
      if h.sizeStruct == 0 then -BADSTATE else 0
  }

  /** The header's words are fields here. */
  class Blob {
    const buf: array<Byte>
    var magic: Magic
    var version: nat
    var lastCompVersion: nat
    var totalsize: nat
    var offRsv: nat
    var offStruct: nat
    var sizeStruct: nat
    var offStrings: nat
    var sizeStrings: nat

    constructor (buf: array<Byte>)
      ensures this.buf == buf
    {
      this.buf := buf;
      magic, version, lastCompVersion, totalsize := Unfinished, 0, 0, 0;
      offRsv, offStruct, sizeStruct, offStrings, sizeStrings := 0, 0, 0, 0, 0;
    }

    function Head(): Header
      reads this
    {
      Header(magic, version, lastCompVersion, totalsize, offRsv, offStruct, sizeStruct, offStrings, sizeStrings)
    }
  }

  // ---- memory ----

  /** The memory with these bytes written at an offset. */
  function Put(data: seq<Byte>, off: nat, src: seq<Byte>): (r: seq<Byte>)
    requires off + |src| <= |data|
    ensures |r| == |data|
  {
    data[..off] + src + data[off + |src|..]
  }

  /** memcpy. */
  method Copy(buf: array<Byte>, off: nat, src: seq<Byte>)
    requires off + |src| <= buf.Length
    modifies buf
    ensures buf[..] == Put(old(buf[..]), off, src)
  {
    forall i | 0 <= i < |src| {
      buf[off + i] := src[i];
    }
  }

  /** memmove, within one buffer. */
  method Move(buf: array<Byte>, dst: nat, src: nat, n: nat)
    requires dst + n <= buf.Length && src + n <= buf.Length
    modifies buf
    ensures buf[..] == Put(old(buf[..]), dst, old(buf[..])[src..src + n])
  {
    forall i | 0 <= i < n {
      buf[dst + i] := buf[src + i];
    }
  }

  /** What lies apart from a write stays, and what is written is there. */
  lemma PutSlices(data: seq<Byte>, off: nat, src: seq<Byte>)
    requires off + |src| <= |data|
    ensures Put(data, off, src)[off..off + |src|] == src
    ensures forall i, j {:trigger Put(data, off, src)[i..j]} :: 0 <= i <= j <= off ==> Put(data, off, src)[i..j] == data[i..j]
    ensures forall i, j {:trigger Put(data, off, src)[i..j]} ::
      off + |src| <= i <= j <= |data| ==> Put(data, off, src)[i..j] == data[i..j]
  {
  }

  /** Two adjacent writes are one. */
  lemma PutPut(data: seq<Byte>, off: nat, a: seq<Byte>, b: seq<Byte>)
    requires off + |a| + |b| <= |data|
    ensures Put(Put(data, off, a), off + |a|, b) == Put(data, off, a + b)
  {
    var x, y := Put(Put(data, off, a), off + |a|, b), Put(data, off, a + b);
    forall k | 0 <= k < |data| ensures x[k] == y[k] {
      PutAt(Put(data, off, a), off + |a|, b, k);
      PutAt(data, off, a, k);
      PutAt(data, off, a + b, k);
    }
  }

  lemma SubSlice(data: seq<Byte>, lo: nat, hi: nat, i: nat, j: nat)
    requires lo <= hi <= |data| && i <= j <= hi - lo
    ensures data[lo..hi][i..j] == data[lo + i..lo + j]
  {
    var a, b := data[lo..hi][i..j], data[lo + i..lo + j];
    forall k | 0 <= k < j - i ensures a[k] == b[k] {
      assert a[k] == data[lo..hi][i + k] == data[lo + i + k];
    }
  }

  /** A write inside a slice is a write to the slice. */
  lemma PutWithin(data: seq<Byte>, off: nat, src: seq<Byte>, lo: nat, hi: nat)
    requires lo <= off && off + |src| <= hi <= |data|
    ensures Put(data, off, src)[lo..hi] == Put(data[lo..hi], off - lo, src)
  {
    var a, b := Put(data, off, src)[lo..hi], Put(data[lo..hi], off - lo, src);
    forall k | 0 <= k < hi - lo ensures a[k] == b[k] {
      PutAt(data, off, src, lo + k);
      PutAt(data[lo..hi], off - lo, src, k);
    }
  }

  lemma PutAt(data: seq<Byte>, off: nat, src: seq<Byte>, k: nat)
    requires off + |src| <= |data| && k < |data|
    ensures Put(data, off, src)[k] == if off <= k < off + |src| then src[k - off] else data[k]
  {
  }

  // ---- the memory reserve map ----

  /** A memory reserve map entry. */
  datatype Reserve = Reserve(address: nat, size: nat)

  /** Both are numbers of 64 bits. */
  predicate ReserveOk(r: Reserve) {
    r.address < 0x1_0000_0000_0000_0000 && r.size < 0x1_0000_0000_0000_0000
  }

  /** The big-endian number of 64 bits at an offset. */
  function Number(b: seq<Byte>, i: nat): nat
    requires i + 8 <= |b|
  {
    Word(b, i) * 0x1_0000_0000 + Word(b, i + 4)
  }

  predicate EntryAt(data: seq<Byte>, p: nat, r: Reserve) {
    p + 16 <= |data| && Number(data, p) == r.address && Number(data, p + 8) == r.size
  }

  /** The entries, one after the other. */
  ghost predicate MapAt(data: seq<Byte>, off: nat, rs: seq<Reserve>) {
    forall i: nat :: i < |rs| ==> EntryAt(data, off + 16 * i, rs[i])
  }

  /** The same bytes are the same map. */
  lemma MapMoved(data: seq<Byte>, off: nat, data': seq<Byte>, off': nat, rs: seq<Reserve>)
    requires MapAt(data, off, rs) && off + 16 * |rs| <= |data| && off' + 16 * |rs| <= |data'|
    requires data'[off'..off' + 16 * |rs|] == data[off..off + 16 * |rs|]
    ensures MapAt(data', off', rs)
  {
    hide Word;
    var n := 16 * |rs|;
    forall i: nat | i < |rs| ensures EntryAt(data', off' + 16 * i, rs[i]) {
      assert EntryAt(data, off + 16 * i, rs[i]);
      SameWords(data, off, data', off', n, 16 * i);
      SameWords(data, off, data', off', n, 16 * i + 8);
    }
  }

  lemma SameWords(data: seq<Byte>, off: nat, data': seq<Byte>, off': nat, n: nat, i: nat)
    requires off + n <= |data| && off' + n <= |data'| && data'[off'..off' + n] == data[off..off + n] && i + 8 <= n
    ensures Number(data', off' + i) == Number(data, off + i)
  {
    hide Word;
    WordIn(data, off, n, i);
    WordIn(data, off, n, i + 4);
    WordIn(data', off', n, i);
    WordIn(data', off', n, i + 4);
  }

  // ---- strings ----

  /** strlen(s) + 1 bytes. */
  function Terminated(s: Name): seq<Byte> {
    s + [0]
  }

  lemma NameIsTerminated(strings: seq<Byte>, off: nat, s: Name)
    requires 0 !in s
    ensures NameAt(strings, off, s) <==> off + |s| + 1 <= |strings| && strings[off..off + |s| + 1] == Terminated(s)
  {
    if off + |s| + 1 <= |strings| {
      var t := strings[off..off + |s| + 1];
      assert t == strings[off..off + |s|] + [strings[off + |s|]];
      assert t[..|s|] == strings[off..off + |s|] && Terminated(s)[..|s|] == s;
      assert t[|s|] == strings[off + |s|];
    }
  }

  /** _fdt_find_string: the first place in the strings block where the string stands, or -1. */
  method FindString(strings: seq<Byte>, s: Name) returns (p: int)
    requires 0 !in s
    ensures -1 <= p
    ensures 0 <= p ==> NameAt(strings, p, s) && forall q: nat :: q < p ==> !NameAt(strings, q, s)
    ensures p == -1 ==> forall q: nat :: !NameAt(strings, q, s)
  {
    var len := |s| + 1;
    p := 0;
    while p <= |strings| - len
      invariant 0 <= p
      invariant forall q: nat :: q < p ==> !NameAt(strings, q, s)
    {
      NameIsTerminated(strings, p, s);
      if strings[p..p + len] == Terminated(s) {
        return;
      }
      p := p + 1;
    }
    p := -1;
  }

  /** The room that a name takes among these strings: none if it stands there already. */
  ghost function NameRoom(strings: seq<Byte>, s: Name): nat {
    if exists off: nat :: NameAt(strings, off, s) then 0 else |s| + 1
  }

  // ---- writing tokens ----

  lemma FourPuts(data: seq<Byte>, off: nat, a: seq<Byte>, b: seq<Byte>, c: seq<Byte>, d: seq<Byte>)
    requires |a| == |b| == |c| == 4 && off + 12 + |d| <= |data|
    ensures Put(Put(Put(Put(data, off, a), off + 8, c), off + 4, b), off + 12, d) == Put(data, off, a + b + c + d)
  {
    var x := Put(data, off, a);
    assert Put(Put(x, off + 8, c), off + 4, b) == Put(Put(x, off + 4, b), off + 8, c);
    PutPut(data, off, a, b);
    PutPut(data, off, a + b, c);
    PutPut(data, off, a + b + c, d);
  }

  lemma PropEncoded(data: seq<Byte>, hi: nat, raw: nat, val: seq<Byte>)
    requires raw < 0x1_0000_0000 && |val| < 0x8000_0000 && hi + Len(Prop(raw, val)) <= |data|
    ensures
      var t, src := Prop(raw, val), WordBytes(PROP) + WordBytes(|val|) + WordBytes(raw) + val;
      |src| == 12 + |val| && |src| <= Len(t) && Encodes(Put(data, hi, src)[hi..hi + Len(t)], t)
  {
    hide Encodes, WordBytes;
    var n, src := Len(Prop(raw, val)), WordBytes(PROP) + WordBytes(|val|) + WordBytes(raw) + val;
    var data' := Put(data, hi, src);
    var b := data'[hi..hi + n];
    PutSlices(data, hi, src);
    SubSlice(data', hi, hi + n, 0, |src|);
    assert b[..4] == src[..4] && b[4..8] == src[4..8] && b[8..12] == src[8..12] && b[12..12 + |val|] == src[12..];
    EncodesProp(b, raw, val);
  }

  // ---- tokens in place ----

  /** The name offset of a property changed in place. */
  lemma Renamed(b: seq<Byte>, ts: seq<Token>, k: nat, nameoff: nat)
    requires Stream(b, ts) && k < |ts| && ts[k].Prop? && nameoff < 0x1_0000_0000
    ensures Pos(ts, k) + 12 <= |b| && Word(b, Pos(ts, k) + 8) == ts[k].nameoff
    ensures Stream(Put(b, Pos(ts, k) + 8, WordBytes(nameoff)), ts[k := Prop(nameoff, ts[k].value)])
  {
    hide Stream, TotalLen, Encodes, Len, WordBytes, Word, Pos;
    StreamAt(b, ts, k);
    var p, n, t := Pos(ts, k), Len(ts[k]), Prop(nameoff, ts[k].value);
    var c := b[p..p + n];
    RenamedToken(c, ts[k], nameoff);
    WordIn(b, p, n, 8);
    StreamOne(Put(c, 8, WordBytes(nameoff)), t);
    StreamReplace(b, ts, k, k + 1, Put(c, 8, WordBytes(nameoff)), [t]);
    PutInMiddle(b, p, n, 8, WordBytes(nameoff));
    assert ts[..k] + [t] + ts[k + 1..] == ts[k := t];
  }

  lemma RenamedToken(c: seq<Byte>, t: Token, nameoff: nat)
    requires t.Prop? && Encodes(c, t) && nameoff < 0x1_0000_0000
    ensures |c| == Len(t) >= 12 && Word(c, 8) == t.nameoff && Encodes(Put(c, 8, WordBytes(nameoff)), Prop(nameoff, t.value))
  {
    hide WordBytes, Word;
    var d := Put(c, 8, WordBytes(nameoff));
    PutSlices(c, 8, WordBytes(nameoff));
    WordAt(d, 8, nameoff);
    SameWord(c, d, 0);
    SameWord(c, d, 4);
  }

  lemma SameWord(c: seq<Byte>, d: seq<Byte>, i: nat)
    requires i + 4 <= |c| && |d| == |c| && forall k :: i <= k < i + 4 ==> c[k] == d[k]
    ensures Word(c, i) == Word(d, i)
  {
  }

  lemma PutInMiddle(b: seq<Byte>, p: nat, n: nat, i: nat, src: seq<Byte>)
    requires p + n <= |b| && i + |src| <= n
    ensures Put(b, p + i, src) == b[..p] + Put(b[p..p + n], i, src) + b[p + n..]
  {
    PutWithin(b, p + i, src, p, p + n);
    PutSlices(b, p + i, src);
    var d := Put(b, p + i, src);
    assert d == d[..p] + d[p..p + n] + d[p + n..];
    assert d[0..p] == b[0..p];
    assert d[p + n..|b|] == b[p + n..|b|];
  }
}
