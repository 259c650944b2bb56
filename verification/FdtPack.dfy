/** Packing a blob: the blocks are moved together, in place, and the total size becomes the size of the data. */
module FdtPack {

  import opened FdtFormat
  import opened FdtTree
  import opened FdtBlob
  import opened FdtEdit

  /** The size of entry i of the memory reserve map is zero: it ends the map. */
  predicate EndsMap(data: seq<Byte>, off: nat, i: nat)
    requires off + 16 * i + 16 <= |data|
  {
    Number(data, off + 16 * i + 8) == 0
  }

  /** The map has n entries before the one that ends it, and lies before the structure block. */
  ghost predicate MapOf(h: Header, data: seq<Byte>, n: nat) {
    && InOrder(h, |data|) && h.offRsv + 16 * n + 16 <= h.offStruct
    && EndsMap(data, h.offRsv, n) && forall i :: 0 <= i < n ==> !EndsMap(data, h.offRsv, i)
  }

  /** fdt_num_mem_rsv. */
  method NumReserves(fdt: Blob, ghost n: nat) returns (i: nat)
    requires MapOf(fdt.Head(), fdt.buf[..], n)
    ensures i == n
  {
    hide Number;
    i := 0;
    while !EndsMap(fdt.buf[..], fdt.offRsv, i)
      invariant i <= n
      decreases n - i
    {
      i := i + 1;
    }
  }

  /** The memory after the blocks are moved, one after the other, to lower or equal offsets. */
  function Packed(h: Header, data: seq<Byte>, mapSize: nat): seq<Byte>
    requires InOrder(h, |data|) && h.offRsv + mapSize <= h.offStruct
  {
    var d1 := Put(data, HEADER_SIZE, data[h.offRsv..h.offRsv + mapSize]);
    var d2 := Put(d1, HEADER_SIZE + mapSize, d1[h.offStruct..h.offStruct + h.sizeStruct]);
    Put(d2, HEADER_SIZE + mapSize + h.sizeStruct, d2[h.offStrings..h.offStrings + h.sizeStrings])
  }

  function PackedHeader(h: Header, mapSize: nat): Header {
    var strings := HEADER_SIZE + mapSize + h.sizeStruct;
    h.(offRsv := HEADER_SIZE, offStruct := HEADER_SIZE + mapSize, offStrings := strings,
       totalsize := strings + h.sizeStrings)
  }

  /** A move down does not touch what is behind its source. */
  lemma MoveDown(data: seq<Byte>, dst: nat, src: nat, n: nat, i: nat, j: nat)
    requires dst <= src && src + n <= i <= j <= |data|
    ensures
      var d := Put(data, dst, data[src..src + n]);
      |d| == |data| && d[i..j] == data[i..j] && d[dst..dst + n] == data[src..src + n]
  {
    PutApart(data, dst, data[src..src + n], i, j);
    PutSlices(data, dst, data[src..src + n]);
  }

  lemma PackedSlices(data: seq<Byte>, rsv: nat, mapSize: nat, str: nat, size: nat, strings: nat, stringsSize: nat)
    requires HEADER_SIZE <= rsv && rsv + mapSize <= str && str + size <= strings && strings + stringsSize <= |data|
    ensures
      var m, s := HEADER_SIZE + mapSize, HEADER_SIZE + mapSize + size;
      var d1 := Put(data, HEADER_SIZE, data[rsv..rsv + mapSize]);
      var d2 := Put(d1, m, d1[str..str + size]);
      var d3 := Put(d2, s, d2[strings..strings + stringsSize]);
      && |d3| == |data| && d3[HEADER_SIZE..m] == data[rsv..rsv + mapSize] && d3[m..s] == data[str..str + size]
      && d3[s..s + stringsSize] == data[strings..strings + stringsSize]
  {
    hide Put;
    var m, s := HEADER_SIZE + mapSize, HEADER_SIZE + mapSize + size;
    var d1 := Put(data, HEADER_SIZE, data[rsv..rsv + mapSize]);
    MoveDown(data, HEADER_SIZE, rsv, mapSize, str, str + size);
    MoveDown(data, HEADER_SIZE, rsv, mapSize, strings, strings + stringsSize);
    var d2 := Put(d1, m, d1[str..str + size]);
    MoveDown(d1, m, str, size, strings, strings + stringsSize);
    PutApart(d1, m, d1[str..str + size], HEADER_SIZE, m);
    var moved := d2[strings..strings + stringsSize];
    PutSlices(d2, s, moved);
    PutApart(d2, s, moved, HEADER_SIZE, m);
    PutApart(d2, s, moved, m, s);
  }

  lemma PackedBlocks(h: Header, data: seq<Byte>, mapSize: nat)
    requires InOrder(h, |data|) && h.offRsv + mapSize <= h.offStruct && mapSize >= 16
    ensures
      var h', data' := PackedHeader(h, mapSize), Packed(h, data, mapSize);
      && |data'| == |data| && InOrder(h', |data'|) && StructOf(h', data') == StructOf(h, data)
      && StringsOf(h', data') == StringsOf(h, data)
      && data'[HEADER_SIZE..HEADER_SIZE + mapSize] == data[h.offRsv..h.offRsv + mapSize]
  {
    hide Put;
    PackedSlices(data, h.offRsv, mapSize, h.offStruct, h.sizeStruct, h.offStrings, h.sizeStrings);
  }

  lemma PackedEditable(h: Header, data: seq<Byte>, ts: seq<Token>, items: seq<Item>, mapSize: nat)
    requires Editable(h, data, ts, items) && h.offRsv + mapSize <= h.offStruct && mapSize >= 16
    ensures Editable(PackedHeader(h, mapSize), Packed(h, data, mapSize), ts, items)
    ensures |Packed(h, data, mapSize)| == |data| && HEADER_SIZE + mapSize <= |data|
    ensures Packed(h, data, mapSize)[HEADER_SIZE..HEADER_SIZE + mapSize] == data[h.offRsv..h.offRsv + mapSize]
  {
    hide Packed, Stream, Means, StructOf, StringsOf;
    PackedBlocks(h, data, mapSize);
  }

  /** fdt_pack: the tree and the reserve map are the same, and no space is left. */
  method Pack(fdt: Blob, ghost ts: seq<Token>, ghost items: seq<Item>, ghost n: nat) returns (err: int)
    requires Holding(fdt, ts, items) && MapOf(fdt.Head(), fdt.buf[..], n)
    modifies fdt, fdt.buf
    ensures err == 0 && Holding(fdt, ts, items)
    ensures fdt.totalsize == fdt.offStrings + fdt.sizeStrings && fdt.totalsize <= old(fdt.totalsize)
    ensures fdt.offRsv == HEADER_SIZE && fdt.offStruct == HEADER_SIZE + 16 * n + 16
        && fdt.offStrings == fdt.offStruct + fdt.sizeStruct
    ensures fdt.buf[HEADER_SIZE..HEADER_SIZE + 16 * n + 16] == old(fdt.buf[fdt.offRsv..fdt.offRsv + 16 * n + 16])
  {
    hide Packed, Editable, EndsMap;
    ghost var h, data := fdt.Head(), fdt.buf[..];
    var rsv := NumReserves(fdt, n);
    var mapSize := (rsv + 1) * 16;
    PackedEditable(h, data, ts, items, mapSize);
    PackBlocks(fdt, mapSize);
    fdt.totalsize := fdt.offStrings + fdt.sizeStrings;
    assert fdt.buf[..][HEADER_SIZE..HEADER_SIZE + mapSize] == data[h.offRsv..h.offRsv + mapSize];
    err := 0;
  }

  /** _fdt_packblocks, within one buffer. */
  method PackBlocks(fdt: Blob, mapSize: nat)
    requires InOrder(fdt.Head(), fdt.buf.Length) && fdt.offRsv + mapSize <= fdt.offStruct
    modifies fdt`offRsv, fdt`offStruct, fdt`offStrings, fdt.buf
    ensures fdt.buf[..] == Packed(old(fdt.Head()), old(fdt.buf[..]), mapSize)
    ensures fdt.Head() == PackedHeader(old(fdt.Head()), mapSize).(totalsize := fdt.totalsize)
  {
    hide Put;
    var structOff := HEADER_SIZE + mapSize;
    var stringsOff := structOff + fdt.sizeStruct;
    Move(fdt.buf, HEADER_SIZE, fdt.offRsv, mapSize);
    fdt.offRsv := HEADER_SIZE;
    Move(fdt.buf, structOff, fdt.offStruct, fdt.sizeStruct);
    fdt.offStruct := structOff;
    Move(fdt.buf, stringsOff, fdt.offStrings, fdt.sizeStrings);
    fdt.offStrings := stringsOff;
  }
}
