/** Write then read: what a walk over the tags of a finished blob finds is the tree that was written. */
module FdtRoundTrip {

  import opened FdtFormat
  import opened FdtTree
  import opened FdtBlob
  import opened FdtReader
  import FdtEdit
  import FdtRefine
  import Writer = FdtWriter

  // ---- writing a tree ----

  /** What C strings and 32-bit lengths can hold. */
  predicate NameOk(name: Name) {
    0 !in name && |name| < 0x8000_0000
  }

  predicate PropertyOk(p: Property) {
    0 !in p.name && |p.value| < 0x8000_0000
  }

  predicate Writable(n: Node)
    decreases n
  {
    && NameOk(n.name) && (forall i :: 0 <= i < |n.props| ==> PropertyOk(n.props[i]))
    && forall i :: 0 <= i < |n.children| ==> Writable(n.children[i])
  }

  lemma FlatPropsNext(props: seq<Property>, i: nat)
    requires i < |props|
    ensures FlatProps(props[..i + 1]) == FlatProps(props[..i]) + [Has(props[i])]
  {
  }

  lemma FlatAllNext(ns: seq<Node>, i: nat)
    requires i < |ns|
    ensures FlatAll(ns[..i + 1]) == FlatAll(ns[..i]) + Flat(ns[i])
  {
    assert ns[..i + 1] == ns[..i] + [ns[i]];
    FdtRefine.FlatAllConcat(ns[..i], [ns[i]]);
    FdtRefine.FlatAllOne(ns[i]);
  }

  /** The room that is always enough for some properties: their tokens, and their names as new strings. */
  function PropsRoom(props: seq<Property>): nat {
    if props == [] then 0
    else
      var p := props[|props| - 1];
      PropsRoom(props[..|props| - 1]) + Len(Prop(0, p.value)) + |p.name| + 1
  }

  /** The same for a node, and for some nodes. */
  function Room(n: Node): nat
    decreases n
  {
    Len(FdtFormat.BeginNode(n.name)) + PropsRoom(n.props) + RoomAll(n.children) + 4
  }

  function RoomAll(ns: seq<Node>): nat
    decreases ns
  {
    if ns == [] then 0 else RoomAll(ns[..|ns| - 1]) + Room(ns[|ns| - 1])
  }

  lemma PropsRoomNext(props: seq<Property>, i: nat)
    requires i < |props|
    ensures PropsRoom(props[..i + 1]) == PropsRoom(props[..i]) + Len(Prop(0, props[i].value)) + |props[i].name| + 1
  {
    assert props[..i + 1][..i] == props[..i];
  }

  lemma {:induction false} PropsRoomGrows(props: seq<Property>, i: nat)
    requires i <= |props|
    ensures PropsRoom(props[..i]) <= PropsRoom(props)
    decreases |props| - i
  {
    if i == |props| {
      assert props[..i] == props;
    } else {
      PropsRoomNext(props, i);
      PropsRoomGrows(props, i + 1);
    }
  }

  lemma RoomAllNext(ns: seq<Node>, i: nat)
    requires i < |ns|
    ensures RoomAll(ns[..i + 1]) == RoomAll(ns[..i]) + Room(ns[i])
  {
    assert ns[..i + 1][..i] == ns[..i];
  }

  lemma {:induction false} RoomAllGrows(ns: seq<Node>, i: nat)
    requires i <= |ns|
    ensures RoomAll(ns[..i]) <= RoomAll(ns)
    decreases |ns| - i
  {
    if i == |ns| {
      assert ns[..i] == ns;
    } else {
      RoomAllNext(ns, i);
      RoomAllGrows(ns, i + 1);
    }
  }

  /** The bytes taken so far, by the blocks and what is before them. */
  function Used(fdt: Blob): nat
    reads fdt
  {
    fdt.offStruct + fdt.sizeStruct + fdt.sizeStrings
  }

  /** The properties of a node, in order. */
  method EmitProperties(fdt: Blob, props: seq<Property>,
                        ghost rs: seq<Reserve>, ghost ts: seq<Token>, ghost items: seq<Item>)
    returns (err: int, ghost ts': seq<Token>, ghost items': seq<Item>)
    requires Writer.Writing(fdt, rs, ts, items) && forall i :: 0 <= i < |props| ==> PropertyOk(props[i])
    modifies fdt`sizeStruct, fdt`sizeStrings, fdt.buf
    ensures Writer.Writing(fdt, rs, ts', items') && (err == 0 || err == -NOSPACE)
    ensures err == 0 ==> items' == items + FlatProps(props) && Used(fdt) <= old(Used(fdt)) + PropsRoom(props)
    ensures err != 0 ==> old(Used(fdt)) + PropsRoom(props) > fdt.totalsize
  {
    hide Writer.Layout, Len;
    err, ts', items' := 0, ts, items;
    assert FlatProps(props[..0]) == [];
    for i := 0 to |props|
      invariant Writer.Writing(fdt, rs, ts', items') && items' == items + FlatProps(props[..i])
      invariant Used(fdt) <= old(Used(fdt)) + PropsRoom(props[..i])
    {
      PropsRoomNext(props, i);
      PropsRoomGrows(props, i + 1);
      ghost var nameoff;
      err, nameoff := Writer.WriteProperty(fdt, props[i].name, props[i].value, rs, ts', items');
      if err != 0 {
        return;
      }
      FlatPropsNext(props, i);
      ts', items' := ts' + [Prop(nameoff, props[i].value)], items' + [Has(props[i])];
    }
    err := 0;
    assert props[..|props|] == props;
  }

  /** A node, its properties, then its subnodes, by the calls of the sequential writer. */
  method EmitNode(fdt: Blob, n: Node, ghost rs: seq<Reserve>, ghost ts: seq<Token>, ghost items: seq<Item>)
    returns (err: int, ghost ts': seq<Token>, ghost items': seq<Item>)
    requires Writer.Writing(fdt, rs, ts, items) && Writable(n)
    modifies fdt`sizeStruct, fdt`sizeStrings, fdt.buf
    ensures Writer.Writing(fdt, rs, ts', items') && (err == 0 || err == -NOSPACE)
    ensures err == 0 ==> items' == items + Flat(n) && Used(fdt) <= old(Used(fdt)) + Room(n)
    ensures err != 0 ==> old(Used(fdt)) + Room(n) > fdt.totalsize
    decreases n
  {
    hide Writer.Layout, Len, PropsRoom, RoomAll, FlatAll;
    ts', items' := ts, items;
    err := Writer.BeginNode(fdt, n.name, rs, ts, items);
    if err != 0 {
      return;
    }
    ts', items' := ts + [FdtFormat.BeginNode(n.name)], items + [Begin(n.name)];
    err, ts', items' := EmitProperties(fdt, n.props, rs, ts', items');
    if err != 0 {
      return;
    }
    err, ts', items' := EmitNodes(fdt, n.children, rs, ts', items');
    if err != 0 {
      return;
    }
    err := Writer.EndNode(fdt, rs, ts', items');
    if err != 0 {
      return;
    }
    ts', items' := ts' + [FdtFormat.EndNode], items' + [EndOf];
  }

  method EmitNodes(fdt: Blob, ns: seq<Node>, ghost rs: seq<Reserve>, ghost ts: seq<Token>, ghost items: seq<Item>)
    returns (err: int, ghost ts': seq<Token>, ghost items': seq<Item>)
    requires Writer.Writing(fdt, rs, ts, items) && forall i :: 0 <= i < |ns| ==> Writable(ns[i])
    modifies fdt`sizeStruct, fdt`sizeStrings, fdt.buf
    ensures Writer.Writing(fdt, rs, ts', items') && (err == 0 || err == -NOSPACE)
    ensures err == 0 ==> items' == items + FlatAll(ns) && Used(fdt) <= old(Used(fdt)) + RoomAll(ns)
    ensures err != 0 ==> old(Used(fdt)) + RoomAll(ns) > fdt.totalsize
    decreases ns
  {
    hide Writer.Layout, Room, Flat;
    err, ts', items' := 0, ts, items;
    assert FlatAll(ns[..0]) == [];
    for i := 0 to |ns|
      invariant Writer.Writing(fdt, rs, ts', items') && items' == items + FlatAll(ns[..i])
      invariant Used(fdt) <= old(Used(fdt)) + RoomAll(ns[..i])
    {
      RoomAllNext(ns, i);
      RoomAllGrows(ns, i + 1);
      err, ts', items' := EmitNode(fdt, ns[i], rs, ts', items');
      if err != 0 {
        return;
      }
      FlatAllNext(ns, i);
    }
    err := 0;
    assert ns[..|ns|] == ns;
  }

  /** The reserve map, in order, with the entry that ends it. */
  method EmitReserves(fdt: Blob, entries: seq<Reserve>) returns (err: int)
    requires fdt.offStruct <= fdt.totalsize ==> Writer.Writing(fdt, [], [], [])
    requires fdt.sizeStruct == 0 && fdt.sizeStrings == 0 && forall i :: 0 <= i < |entries| ==> ReserveOk(entries[i])
    modifies fdt`offStruct, fdt.buf
    ensures err == if old(fdt.offStruct) + 16 * |entries| + 16 > fdt.totalsize then -NOSPACE else 0
    ensures err == 0 ==>
      && Writer.Writing(fdt, entries + [Reserve(0, 0)], [], [])
      && fdt.offStruct == old(fdt.offStruct) + 16 * |entries| + 16
  {
    hide Writer.Layout;
    for i := 0 to |entries|
      invariant fdt.offStruct <= fdt.totalsize ==> Writer.Writing(fdt, entries[..i], [], [])
      invariant fdt.offStruct == old(fdt.offStruct) + 16 * i
    {
      err := Writer.AddReserve(fdt, entries[i], entries[..i], [], []);
      if err != 0 {
        return;
      }
      assert entries[..i + 1] == entries[..i] + [entries[i]];
    }
    assert entries[..|entries|] == entries;
    err := Writer.FinishReserveMap(fdt, entries, [], []);
  }

  /** A whole blob, from fdt_create to fdt_finish. */
  method WriteTree(fdt: Blob, bufsize: nat, entries: seq<Reserve>, tree: Node) returns (err: int, ghost ts: seq<Token>)
    requires bufsize <= fdt.buf.Length && bufsize < 0x8000_0000 && Writable(tree)
    requires forall i :: 0 <= i < |entries| ==> ReserveOk(entries[i])
    modifies fdt, fdt.buf
    ensures err == 0 || err == -NOSPACE
    ensures err == 0 ==>
      Writer.Finished(fdt.Head(), fdt.buf[..], entries + [Reserve(0, 0)], ts, Flat(tree) + [Finish])
    ensures err != 0 ==> bufsize < 68 + 16 * |entries| + Room(tree)
  {
    hide Writer.Layout, Writer.Finished, Room;
    ts := [];
    err := Writer.Create(fdt, bufsize);
    if err != 0 {
      return;
    }
    err := EmitReserves(fdt, entries);
    if err != 0 {
      return;
    }
    ghost var items;
    ghost var rs := entries + [Reserve(0, 0)];
    err, ts, items := EmitNode(fdt, tree, rs, [], []);
    if err != 0 {
      return;
    }
    assert [] + Flat(tree) == Flat(tree);
    err := Writer.FinishBlob(fdt, rs, ts, items);
    if err == 0 {
      ts := Writer.RebasedAll(ts, fdt.sizeStrings) + [End];
    }
  }

  // ---- reading it ----

  /** fdt_string: the string at an offset into the strings block. */
  function StringAt(strings: seq<Byte>, off: nat): (s: Name)
    requires off <= |strings|
  {
    strings[off..NulFrom(strings, off)]
  }

  lemma StringIsName(strings: seq<Byte>, off: nat, name: Name)
    requires NameAt(strings, off, name)
    ensures off <= |strings| && StringAt(strings, off) == name
  {
    NotNul(strings, off, name);
    assert NulFrom(strings, off) == off + |name|;
  }

  /** What the tag at an offset and the bytes behind it say. */
  method ReadItem(b: seq<Byte>, strings: seq<Byte>, offset: nat, tag: nat, ghost ts: seq<Token>, ghost items: seq<Item>,
                  ghost k: nat) returns (item: Item)
    requires Stream(b, ts) && Means(strings, ts, items) && k < |ts| && !ts[k].Nop?
    requires offset == Pos(ts, k) && tag == Tag(ts[k])
    ensures Count(ts[..k]) < |items| && item == items[Count(ts[..k])]
  {
    hide Stream, Means, Pos, Word, Count, NameAt, NulFrom;
    FdtRefine.TokenMeans(strings, ts, items, k);
    TagKinds(ts[k]);
    if tag == BEGIN_NODE {
      NameLength(b, ts, k);
      item := Begin(b[offset + 4..NulFrom(b, offset + 4)]);
    } else if tag == PROP {
      PropFields(b, ts, k);
      var len, nameoff := Word(b, offset + 4), Word(b, offset + 8);
      StringIsName(strings, nameoff, items[Count(ts[..k])].prop.name);
      item := Has(Property(StringAt(strings, nameoff), b[offset + 12..offset + 12 + len]));
    } else if tag == END_NODE {
      item := EndOf;
    } else {
      item := Finish;
    }
  }

  lemma NothingCounted(ts: seq<Token>)
    ensures Count(ts[..0]) == 0
  {
  }

  /** fdt_next_tag from the beginning to the end tag; nops are passed over. */
  method ReadItems(b: seq<Byte>, strings: seq<Byte>, ghost ts: seq<Token>, ghost items: seq<Item>) returns (read: seq<Item>)
    requires Stream(b, ts) && Means(strings, ts, items) && ts != [] && ts[|ts| - 1] == End
    requires forall k :: 0 <= k < |ts| - 1 ==> ts[k] != End
    ensures read == items
  {
    hide Stream, Means, Pos, Count, NextTagOf;
    read := [];
    ghost var k := 0;
    var offset: nat := 0;
    PosZero(ts);
    NothingCounted(ts);
    ReadAt(b, ts, 0);
    var tag, next := NextTag(b, offset);
    while tag != END
      invariant k < |ts| && offset == Pos(ts, k) && (tag, next) == (Tag(ts[k]), Pos(ts, k + 1))
      invariant Count(ts[..k]) <= |items| && read == items[..Count(ts[..k])]
      decreases |ts| - k
    {
      TagKinds(ts[k]);
      if tag != NOP {
        var item := ReadItem(b, strings, offset, tag, ts, items, k);
        FdtRefine.TokenMeans(strings, ts, items, k);
        read := read + [item];
      } else {
        FdtRefine.NopCounts(ts, k);
      }
      offset := next;
      k := k + 1;
      ReadAt(b, ts, k);
      tag, next := NextTag(b, offset);
    }
    TagKinds(ts[k]);
    var item := ReadItem(b, strings, offset, tag, ts, items, k);
    read := read + [item];
    FdtRefine.TokenMeans(strings, ts, items, k);
    AllCounted(strings, ts, items);
  }

  lemma {:induction false} AllCounted(strings: seq<Byte>, ts: seq<Token>, items: seq<Item>)
    requires Means(strings, ts, items)
    ensures Count(ts[..|ts|]) == |items|
  {
    assert ts[..|ts|] == ts && ts == ts + [];
    MeansSplit(strings, ts, [], items);
  }

  // ---- there and back ----

  /** The end tag is the last token of a tree. */
  lemma EndIsLast(strings: seq<Byte>, ts: seq<Token>, tree: Node)
    requires Means(strings, ts, Flat(tree) + [Finish])
    requires ts != [] && ts[|ts| - 1] == End
    ensures forall k :: 0 <= k < |ts| - 1 ==> ts[k] != End
  {
    hide Means, Flat, Count;
    var items := Flat(tree) + [Finish];
    NoFinish(tree);
    AllCounted(strings, ts, items);
    forall k | 0 <= k < |ts| - 1 ensures ts[k] != End {
      if ts[k] == End {
        FdtRefine.TokenMeans(strings, ts, items, k);
        FdtRefine.TokenMeans(strings, ts, items, |ts| - 1);
        assert ts[..|ts| - 1] == ts[..k + 1] + ts[k + 1..|ts| - 1];
        FdtEdit.CountConcat(ts[..k + 1], ts[k + 1..|ts| - 1]);
      }
    }
  }

  /** A tree written with the sequential writer and closed with fdt_finish is read again, name by name and value by
      value, by walking over the tags; and no other tree is. */
  method WriteThenRead(fdt: Blob, bufsize: nat, entries: seq<Reserve>, tree: Node)
    returns (err: int, read: seq<Item>)
    requires bufsize <= fdt.buf.Length && bufsize < 0x8000_0000 && Writable(tree)
    requires forall i :: 0 <= i < |entries| ==> ReserveOk(entries[i])
    modifies fdt, fdt.buf
    ensures err == 0 || err == -NOSPACE
    ensures err != 0 ==> bufsize < 68 + 16 * |entries| + Room(tree)
    ensures err == 0 ==> read == Flat(tree) + [Finish] && forall other :: read == Flat(other) + [Finish] ==> other == tree
    ensures err == 0 ==>
      && CheckHeader(fdt.Head()) == 0 && fdt.offRsv + 16 * |entries| + 16 == fdt.offStruct
      && fdt.offStruct <= fdt.offStrings <= fdt.totalsize <= fdt.buf.Length
      && MapAt(fdt.buf[..], fdt.offRsv, entries + [Reserve(0, 0)])
      && Holds(fdt.buf[fdt.offStruct..fdt.offStrings], fdt.buf[fdt.offStrings..fdt.totalsize], tree)
  {
    hide Stream, Means, Flat, MapAt, Room;
    ghost var ts;
    read := [];
    err, ts := WriteTree(fdt, bufsize, entries, tree);
    if err != 0 {
      return;
    }
    var b, strings := fdt.buf[fdt.offStruct..fdt.offStrings], fdt.buf[fdt.offStrings..fdt.totalsize];
    assert b == fdt.buf[..][fdt.offStruct..fdt.offStrings] && strings == fdt.buf[..][fdt.offStrings..fdt.totalsize];
    EndIsLast(strings, ts, tree);
    read := ReadItems(b, strings, ts, Flat(tree) + [Finish]);
    forall other | read == Flat(other) + [Finish] ensures other == tree {
      FlatUnique(other, tree, [Finish], [Finish]);
    }
  }
}
