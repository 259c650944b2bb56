/** Edits of a blob as operations on the tree and the memory reserve map that it holds. */
module FdtTreeEdit {

  import opened FdtFormat
  import opened FdtTree
  import opened FdtBlob
  import opened FdtReader
  import opened FdtEdit
  import opened FdtNop
  import opened FdtPack
  import opened FdtRefine
  import Writer = FdtWriter

  // ---- what a blob holds ----

  /** The memory reserve map has these entries; the last one, and no other, has size zero. */
  ghost predicate Reserves(h: Header, data: seq<Byte>, rs: seq<Reserve>) {
    && InOrder(h, |data|) && rs != []
    && (forall i :: 0 <= i < |rs| ==> (rs[i].size == 0 <==> i == |rs| - 1))
    && h.offRsv + 16 * |rs| <= h.offStruct && MapAt(data, h.offRsv, rs)
  }

  /** The blob holds this tree and these memory reservations. */
  ghost predicate TreeBlob(fdt: Blob, ts: seq<Token>, t: Node, rs: seq<Reserve>)
    reads fdt, fdt.buf
  {
    Holding(fdt, ts, Flat(t) + [Finish]) && Reserves(fdt.Head(), fdt.buf[..], rs)
  }

  /** A blob from the sequential writer can be edited and packed. */
  lemma FinishedIsTreeBlob(fdt: Blob, entries: seq<Reserve>, end: Reserve, ts: seq<Token>, t: Node)
    requires Writer.Finished(fdt.Head(), fdt.buf[..], entries + [end], ts, Flat(t) + [Finish])
    requires end.size == 0 && forall i :: 0 <= i < |entries| ==> entries[i].size != 0
    ensures TreeBlob(fdt, ts, t, entries + [end])
  {
    hide Stream, Means, Flat, MapAt;
  }

  lemma ReservesKept(h: Header, data: seq<Byte>, h': Header, data': seq<Byte>, rs: seq<Reserve>)
    requires Reserves(h, data, rs) && Kept(data, data', h.offStruct)
    requires InOrder(h', |data'|) && h'.offRsv == h.offRsv && h'.offStruct == h.offStruct
    ensures Reserves(h', data', rs)
  {
    hide MapAt;
    var n := h.offRsv + 16 * |rs|;
    SubSlice(data, 0, h.offStruct, h.offRsv, n);
    SubSlice(data', 0, h.offStruct, h.offRsv, n);
    assert data[0..h.offStruct] == data[..h.offStruct] == data'[..h.offStruct] == data'[0..h.offStruct];
    MapMoved(data, h.offRsv, data', h.offRsv, rs);
  }

  lemma ReservesAreMap(h: Header, data: seq<Byte>, rs: seq<Reserve>)
    requires Reserves(h, data, rs)
    ensures MapOf(h, data, |rs| - 1)
  {
    hide Number;
    forall i: nat | i < |rs| ensures EndsMap(data, h.offRsv, i) <==> i == |rs| - 1 {
      assert EntryAt(data, h.offRsv + 16 * i, rs[i]);
    }
  }

  /** fdt_num_mem_rsv: the entry that ends the map does not count. */
  method CountReserves(fdt: Blob, ghost ts: seq<Token>, ghost t: Node, ghost rs: seq<Reserve>) returns (n: nat)
    requires TreeBlob(fdt, ts, t, rs)
    ensures n == |rs| - 1
  {
    hide Editable, Reserves, MapOf;
    ReservesAreMap(fdt.Head(), fdt.buf[..], rs);
    ReservesBound(fdt.Head(), fdt.buf[..], rs);
    n := NumReserves(fdt, |rs| - 1);
  }

  /** fdt_get_mem_rsv. */
  method GetReserve(fdt: Blob, n: nat, ghost ts: seq<Token>, ghost t: Node, ghost rs: seq<Reserve>)
    returns (address: nat, size: nat)
    requires TreeBlob(fdt, ts, t, rs) && n < |rs|
    ensures Reserve(address, size) == rs[n]
  {
    hide Editable, Number;
    assert EntryAt(fdt.buf[..], fdt.offRsv + 16 * n, rs[n]);
    address, size := Number(fdt.buf[..], fdt.offRsv + 16 * n), Number(fdt.buf[..], fdt.offRsv + 16 * n + 8);
  }

  // ---- tokens and the nodes they begin ----

  /** Every node begin in the stream is that of a node of the tree. */
  lemma TokenHasPath(strings: seq<Byte>, ts: seq<Token>, t: Node, k: nat) returns (p: Path)
    requires TreeTokens(strings, ts, t) && k < |ts| && ts[k].BeginNode?
    ensures NodeToken(ts, k, t, p) && At(t, p).name == ts[k].name
  {
    hide Flat, Means, Count, IsPath, At, Index;
    var items := Flat(t) + [Finish];
    TokenMeans(strings, ts, items, k);
    p := BeginHasPath(t, Count(ts[..k]));
  }

  /** Where the node at a path stands. */
  lemma PlaceOfToken(strings: seq<Byte>, ts: seq<Token>, t: Node, p: Path, k: nat) returns (n: Place)
    requires TreeTokens(strings, ts, t) && NodeToken(ts, k, t, p)
    ensures n.start == k && n.end < |ts| && NodeAt(ts, n) && PlaceOf(ts, n, At(t, p))
  {
    hide Flat, IsPath, At, Index, Means, Count, NodeAt, PlaceOf;
    var items, c, m := Flat(t) + [Finish], Index(t, p), At(t, p);
    ItemsAt(t, p);
    assert ts == ts[..k] + ts[k..];
    MeansSplit(strings, ts[..k], ts[k..], items);
    var rest := items[c + |Flat(m)|..];
    RestOf(t, p);
    n := FindNode(strings, ts, k, m, rest);
    KidsBounds(ts, n);
    assert n.start == k by {
      assert n.start > k ==> Inert(ts[k]);
    }
    if n.end == |ts| {
      NothingMeans(strings, ts[n.end..], rest);
    }
  }

  lemma NothingMeans(strings: seq<Byte>, ts: seq<Token>, items: seq<Item>)
    requires Means(strings, ts, items) && ts == []
    ensures items == []
  {
  }

  // ---- properties ----

  /** The index of the first property with the name, or the number of properties. */
  function FirstIndex(props: seq<Property>, name: Name): (i: nat)
    ensures i <= |props|
  {
    if props == [] || props[0].name == name then 0 else 1 + FirstIndex(props[1..], name)
  }

  lemma {:induction false} FirstIndexIs(props: seq<Property>, name: Name, i: nat)
    requires if i < |props| then FirstNamed(props, name, i) else i == |props| && NoneNamed(props, name)
    ensures FirstIndex(props, name) == i
  {
    if props != [] && props[0].name != name {
      forall j | 0 <= j < |props[1..]| ensures props[1..][j] == props[j + 1] {
      }
      FirstIndexIs(props[1..], name, i - 1);
    }
  }

  /** The first property with the name has another value; without one there is a new first property. */
  function PropsSet(props: seq<Property>, name: Name, value: seq<Byte>): seq<Property> {
    var i := FirstIndex(props, name);
    if i < |props| then props[i := Property(name, value)] else [Property(name, value)] + props
  }

  function PropsDeleted(props: seq<Property>, name: Name): seq<Property> {
    var i := FirstIndex(props, name);
    if i < |props| then Without(props, i) else props
  }

  /** What the name stands for, if it is there. */
  function ValueOf(props: seq<Property>, name: Name): seq<Byte> {
    var i := FirstIndex(props, name);
    if i < |props| then props[i].value else []
  }

  /** The bytes that setting a property to a value of this length adds to the blob: its padded length, less that of the
      old value; or without an old one its header too, and the name unless that stands among the strings. */
  ghost function Growth(h: Header, data: seq<Byte>, props: seq<Property>, name: Name, len: nat): int
    requires InOrder(h, |data|)
  {
    var i := FirstIndex(props, name);
    if i < |props| then Align(len) - Align(|props[i].value|) else NameRoom(StringsOf(h, data), name) + 12 + Align(len)
  }

  /** The tree with other properties at a path. */
  ghost function WithProps(t: Node, p: Path, props: seq<Property>): Node
    requires IsPath(t, p)
  {
    Replace(t, p, At(t, p).(props := props))
  }

  /** What an edit of a property has to do with the tree. */
  lemma PropsRefined(strings: seq<Byte>, ts: seq<Token>, t: Node, p: Path, k: nat, name: Name, x: nat, found: bool,
                     v: seq<Byte>)
    requires TreeTokens(strings, ts, t) && NodeToken(ts, k, t, p) && PropertyAt(strings, ts, k, name, x)
    requires if found then ts[x].Prop? && NameAt(strings, ts[x].nameoff, name) else !Inert(ts[x])
    ensures k < |ts| && x < |ts|
    ensures found <==> FirstIndex(At(t, p).props, name) < |At(t, p).props|
    ensures found ==> ts[x].value == ValueOf(At(t, p).props, name)
    ensures ItemsWith(Flat(t) + [Finish], ts, found, k, x, Property(name, v))
         == Flat(WithProps(t, p, PropsSet(At(t, p).props, name, v))) + [Finish]
  {
    hide Flat, IsPath, At, Index, Means, NameAt, Count, PropertyAt, Replace, ItemsWith, TreeTokens;
    var i := SetPropRefines(strings, ts, t, p, k, name, x, found, v);
    FirstIndexIs(At(t, p).props, name, if found then i else |At(t, p).props|);
  }

  /** Where the properties of a node end, the stream does not. */
  lemma NodeGoesOn(strings: seq<Byte>, ts: seq<Token>, t: Node, p: Path, k: nat, name: Name, x: nat)
    requires TreeTokens(strings, ts, t) && NodeToken(ts, k, t, p) && PropertyAt(strings, ts, k, name, x) && !Inert(ts[x])
    ensures !ts[x].End?
  {
    hide Flat, IsPath, At, Index, Means, NameAt, Count, PropertyAt;
    var items := Flat(t) + [Finish];
    MissingProperty(strings, ts, t, p, k, name, x);
    InRange(strings, ts, k, name, x);
    TokenMeans(strings, ts, items, x);
    ItemsAt(t, p);
    NoFinish(t);
    assert items[Count(ts[..x])] == Flat(t)[Count(ts[..x])];
  }

  /** The property found, or where there is none. */
  lemma FoundOrMissing(h: Header, data: seq<Byte>, ts: seq<Token>, k: nat, name: Name, x: nat, found: bool)
    requires if found then Found(h, data, ts, k, name, x) else Missing(h, data, ts, k, name, x)
    ensures InOrder(h, |data|) && PropertyAt(StringsOf(h, data), ts, k, name, x) && x < |ts|
    ensures if found then ts[x].Prop? && NameAt(StringsOf(h, data), ts[x].nameoff, name) else !Inert(ts[x])
  {
  }

  /** The node that begins at token k. */
  lemma NodeOf(h: Header, data: seq<Byte>, ts: seq<Token>, t: Node, k: nat) returns (p: Path)
    requires Editable(h, data, ts, Flat(t) + [Finish]) && k < |ts| && ts[k].BeginNode?
    ensures k + 1 < |ts| && InOrder(h, |data|) && TreeTokens(StringsOf(h, data), ts, t) && NodeToken(ts, k, t, p)
    ensures At(t, p).name == ts[k].name
  {
    hide Stream, Means, Flat, IsPath, NodeToken, StringsOf;
    p := TokenHasPath(StringsOf(h, data), ts, t, k);
  }

  /** fdt_setprop. */
  method SetProperty(fdt: Blob, nodeoffset: int, name: Name, val: seq<Byte>,
                     ghost ts: seq<Token>, ghost t: Node, ghost rs: seq<Reserve>, ghost k: nat)
    returns (err: int, ghost p: Path, ghost ts': seq<Token>, ghost t': Node)
    requires TreeBlob(fdt, ts, t, rs) && k < |ts| && ts[k].BeginNode? && nodeoffset == Pos(ts, k)
    requires 0 !in name && |val| < 0x8000_0000
    modifies fdt`sizeStruct, fdt`offStrings, fdt`sizeStrings, fdt.buf
    ensures NodeToken(ts, k, t, p) && TreeBlob(fdt, ts', t', rs)
    ensures old(InOrder(fdt.Head(), fdt.buf.Length))
    ensures
      var growth := old(Growth(fdt.Head(), fdt.buf[..], At(t, p).props, name, |val|));
      err == if old(fdt.offStrings + fdt.sizeStrings) + growth > fdt.totalsize then -NOSPACE else 0
    ensures t' == if err == 0 then WithProps(t, p, PropsSet(At(t, p).props, name, val)) else t
  {
    hide Editable, Reserves, TreeTokens, IsPath, Replace, At, PropsSet, Flat, TokensWith, ItemsWith, PropertyAt,
      NameAt, Found, Missing, StringsOf, Means, Stream, Pos, Align, Kept;
    ghost var h, data, items := fdt.Head(), fdt.buf[..], Flat(t) + [Finish];
    p := NodeOf(h, data, ts, t, k);
    ghost var found, x, nameoff;
    err, found, x, nameoff := SetProp(fdt, nodeoffset, name, val, ts, items, k);
    FoundOrMissing(h, data, ts, k, name, x, found);
    PropsRefined(StringsOf(h, data), ts, t, p, k, name, x, found, val);
    if !found {
      NodeGoesOn(StringsOf(h, data), ts, t, p, k, name, x);
    }
    if err == 0 {
      ts', t' := TokensWith(ts, found, k, x, nameoff, val), WithProps(t, p, PropsSet(At(t, p).props, name, val));
    } else {
      ts', t' := ts, t;
    }
    EditBounds(fdt.Head(), fdt.buf[..], ts', Flat(t') + [Finish]);
    ReservesKept(h, data, fdt.Head(), fdt.buf[..], rs);
  }

  /** fdt_appendprop. */
  method AppendProperty(fdt: Blob, nodeoffset: int, name: Name, val: seq<Byte>,
                        ghost ts: seq<Token>, ghost t: Node, ghost rs: seq<Reserve>, ghost k: nat)
    returns (err: int, ghost p: Path, ghost ts': seq<Token>, ghost t': Node)
    requires TreeBlob(fdt, ts, t, rs) && k < |ts| && ts[k].BeginNode? && nodeoffset == Pos(ts, k)
    requires 0 !in name && |val| + fdt.buf.Length < 0x8000_0000
    modifies fdt`sizeStruct, fdt`offStrings, fdt`sizeStrings, fdt.buf
    ensures NodeToken(ts, k, t, p) && TreeBlob(fdt, ts', t', rs)
    ensures old(InOrder(fdt.Head(), fdt.buf.Length))
    ensures
      var growth := old(Growth(fdt.Head(), fdt.buf[..], At(t, p).props, name, |ValueOf(At(t, p).props, name)| + |val|));
      err == if old(fdt.offStrings + fdt.sizeStrings) + growth > fdt.totalsize then -NOSPACE else 0
    ensures t' == if err == 0 then WithProps(t, p, PropsSet(At(t, p).props, name, ValueOf(At(t, p).props, name) + val)) else t
  {
    hide Editable, Reserves, TreeTokens, IsPath, Replace, At, PropsSet, Flat, TokensWith, ItemsWith, PropertyAt,
      NameAt, Found, Missing, StringsOf, Means, Stream, Pos, Align, Kept, FirstIndex;
    ghost var h, data, items := fdt.Head(), fdt.buf[..], Flat(t) + [Finish];
    p := NodeOf(h, data, ts, t, k);
    ghost var found, x, nameoff;
    err, found, x, nameoff := AppendProp(fdt, nodeoffset, name, val, ts, items, k);
    FoundOrMissing(h, data, ts, k, name, x, found);
    ghost var v := if found then ts[x].value + val else val;
    PropsRefined(StringsOf(h, data), ts, t, p, k, name, x, found, v);
    assert v == ValueOf(At(t, p).props, name) + val;
    if err == 0 {
      ts', t' := TokensWith(ts, found, k, x, nameoff, v), WithProps(t, p, PropsSet(At(t, p).props, name, v));
    } else {
      ts', t' := ts, t;
    }
    EditBounds(fdt.Head(), fdt.buf[..], ts', Flat(t') + [Finish]);
    ReservesKept(h, data, fdt.Head(), fdt.buf[..], rs);
  }

  /** What the removal of a property has to do with the tree. */
  lemma DeletionRefined(h: Header, data: seq<Byte>, ts: seq<Token>, t: Node, p: Path, k: nat, name: Name, x: nat)
    requires InOrder(h, |data|) && TreeTokens(StringsOf(h, data), ts, t) && NodeToken(ts, k, t, p)
    requires Found(h, data, ts, k, name, x)
    ensures FirstIndex(At(t, p).props, name) < |At(t, p).props| && x < |ts|
    ensures
      var items, c := Flat(t) + [Finish], Count(ts[..x]);
      c < |items| && items[..c] + items[c + 1..] == Flat(WithProps(t, p, PropsDeleted(At(t, p).props, name))) + [Finish]
  {
    hide Flat, IsPath, At, Index, Means, NameAt, Count, PropertyAt, Replace, TreeTokens, StringsOf;
    var i := DelPropRefines(StringsOf(h, data), ts, t, p, k, name, x);
    FirstIndexIs(At(t, p).props, name, i);
  }

  lemma NothingToDelete(h: Header, data: seq<Byte>, ts: seq<Token>, t: Node, p: Path, k: nat, name: Name, x: nat)
    requires InOrder(h, |data|) && TreeTokens(StringsOf(h, data), ts, t) && NodeToken(ts, k, t, p)
    requires Missing(h, data, ts, k, name, x)
    ensures FirstIndex(At(t, p).props, name) == |At(t, p).props| && x < |ts| && !ts[x].End?
  {
    hide Flat, IsPath, At, Index, Means, NameAt, Count, PropertyAt, TreeTokens, StringsOf;
    MissingProperty(StringsOf(h, data), ts, t, p, k, name, x);
    FirstIndexIs(At(t, p).props, name, |At(t, p).props|);
    NodeGoesOn(StringsOf(h, data), ts, t, p, k, name, x);
  }

  /** fdt_delprop. */
  method DeleteProperty(fdt: Blob, nodeoffset: int, name: Name,
                        ghost ts: seq<Token>, ghost t: Node, ghost rs: seq<Reserve>, ghost k: nat)
    returns (err: int, ghost p: Path, ghost ts': seq<Token>, ghost t': Node)
    requires TreeBlob(fdt, ts, t, rs) && k < |ts| && ts[k].BeginNode? && nodeoffset == Pos(ts, k) && 0 !in name
    modifies fdt`sizeStruct, fdt`offStrings, fdt.buf
    ensures NodeToken(ts, k, t, p) && TreeBlob(fdt, ts', t', rs)
    ensures err == if FirstIndex(At(t, p).props, name) < |At(t, p).props| then 0 else -NOTFOUND
    ensures t' == if err == 0 then WithProps(t, p, PropsDeleted(At(t, p).props, name)) else t
  {
    hide Editable, Reserves, TreeTokens, IsPath, Replace, At, PropsDeleted, Flat, Found, Missing, StringsOf, Means, Stream,
      Pos, Kept, FirstIndex, Count;
    ghost var h, data := fdt.Head(), fdt.buf[..];
    p := NodeOf(h, data, ts, t, k);
    ghost var x;
    err, x := DelProp(fdt, nodeoffset, name, ts, Flat(t) + [Finish], k);
    if err == 0 {
      DeletionRefined(h, data, ts, t, p, k, name, x);
      ts', t' := ts[..x] + ts[x + 1..], WithProps(t, p, PropsDeleted(At(t, p).props, name));
    } else {
      NothingToDelete(h, data, ts, t, p, k, name, x);
      ts', t' := ts, t;
    }
    EditBounds(fdt.Head(), fdt.buf[..], ts', Flat(t') + [Finish]);
    ReservesKept(h, data, fdt.Head(), fdt.buf[..], rs);
  }

  /** fdt_nop_property: the same tree as after fdt_delprop. */
  method NopOutProperty(fdt: Blob, nodeoffset: int, name: Name,
                        ghost ts: seq<Token>, ghost t: Node, ghost rs: seq<Reserve>, ghost k: nat)
    returns (err: int, ghost p: Path, ghost ts': seq<Token>, ghost t': Node)
    requires TreeBlob(fdt, ts, t, rs) && k < |ts| && ts[k].BeginNode? && nodeoffset == Pos(ts, k) && 0 !in name
    modifies fdt.buf
    ensures NodeToken(ts, k, t, p) && TreeBlob(fdt, ts', t', rs)
    ensures err == if FirstIndex(At(t, p).props, name) < |At(t, p).props| then 0 else -NOTFOUND
    ensures t' == if err == 0 then WithProps(t, p, PropsDeleted(At(t, p).props, name)) else t
  {
    hide Editable, Reserves, TreeTokens, IsPath, Replace, At, PropsDeleted, Flat, Found, Missing, StringsOf, Means, Stream,
      Pos, FirstIndex, Count, Nops;
    ghost var h, data := fdt.Head(), fdt.buf[..];
    p := NodeOf(h, data, ts, t, k);
    ghost var x;
    err, x := NopProperty(fdt, nodeoffset, name, ts, Flat(t) + [Finish], k);
    if err == 0 {
      DeletionRefined(h, data, ts, t, p, k, name, x);
      ts', t' := ts[..x] + Nops(Len(ts[x]) / 4) + ts[x + 1..], WithProps(t, p, PropsDeleted(At(t, p).props, name));
    } else {
      NothingToDelete(h, data, ts, t, p, k, name, x);
      ts', t' := ts, t;
    }
    EditBounds(h, data, ts, Flat(t) + [Finish]);
    EditBounds(fdt.Head(), fdt.buf[..], ts', Flat(t') + [Finish]);
    if err == 0 {
      ChangedBehind(data, fdt.buf[..], h.offStruct + Pos(ts, x), h.offStruct + Pos(ts, x) + Len(ts[x]), h.offStruct);
    }
    ReservesKept(h, data, fdt.Head(), fdt.buf[..], rs);
  }

  // ---- nodes ----

  /** fdt_set_name. */
  method Rename(fdt: Blob, nodeoffset: int, name: Name,
                ghost ts: seq<Token>, ghost t: Node, ghost rs: seq<Reserve>, ghost k: nat)
    returns (err: int, ghost p: Path, ghost ts': seq<Token>, ghost t': Node)
    requires TreeBlob(fdt, ts, t, rs) && k < |ts| && ts[k].BeginNode? && nodeoffset == Pos(ts, k)
    requires 0 !in name && |name| < 0x4000_0000
    modifies fdt`sizeStruct, fdt`offStrings, fdt.buf
    ensures NodeToken(ts, k, t, p) && TreeBlob(fdt, ts', t', rs)
    ensures
      var growth := Len(BeginNode(name)) - Len(BeginNode(At(t, p).name));
      err == if old(fdt.offStrings + fdt.sizeStrings) + growth > fdt.totalsize then -NOSPACE else 0
    ensures t' == if err == 0 then Replace(t, p, At(t, p).(name := name)) else t
  {
    hide Editable, Reserves, TreeTokens, IsPath, Replace, At, Flat, StringsOf, Means, Stream, Pos, Kept, Count, With, Len;
    ghost var h, data := fdt.Head(), fdt.buf[..];
    p := NodeOf(h, data, ts, t, k);
    assert ts[k] == BeginNode(At(t, p).name);
    err := SetName(fdt, nodeoffset, name, ts, Flat(t) + [Finish], k);
    SetNameRefines(StringsOf(h, data), ts, t, p, k, name);
    if err == 0 {
      ts', t' := With(ts, k, BeginNode(name)), Replace(t, p, At(t, p).(name := name));
    } else {
      ts', t' := ts, t;
    }
    EditBounds(fdt.Head(), fdt.buf[..], ts', Flat(t') + [Finish]);
    ReservesKept(h, data, fdt.Head(), fdt.buf[..], rs);
  }

  lemma {:induction false} ReplacedAt(t: Node, p: Path, n: Node)
    requires IsPath(t, p)
    ensures IsPath(Replace(t, p, n), p) && At(Replace(t, p, n), p) == n && Index(Replace(t, p, n), p) == Index(t, p)
    decreases p
  {
    hide FlatAll;
    if p != [] {
      var c := Replace(t.children[p[0]], p[1..], n);
      ReplacedAt(t.children[p[0]], p[1..], n);
      assert t.children[p[0] := c][..p[0]] == t.children[..p[0]];
    }
  }

  /** A subnode of the node fits the name. */
  predicate HasFit(n: Node, name: Name) {
    exists i :: 0 <= i < |n.children| && Fits(n.children[i].name, name)
  }

  lemma NoneFitsIff(ts: seq<Token>, place: Place, n: Node, name: Name)
    requires PlaceOf(ts, place, n)
    ensures NoneFits(ts, place, name, |place.kids|) <==> !HasFit(n, name)
  {
    hide Fits;
    forall i | 0 <= i < |n.children|
      ensures PlaceOf(ts, place.kids[i], n.children[i]) && ts[place.kids[i].start] == BeginNode(n.children[i].name)
    {
    }
  }

  /** The node with a new first subnode. */
  function Adopted(n: Node, name: Name): Node {
    n.(children := [Node(name, [], [])] + n.children)
  }

  /** The tokens with a new node, and where it begins. */
  lemma AddedToken(ts: seq<Token>, t: Node, p: Path, x: nat, name: Name)
    requires IsPath(t, p) && x <= |ts| && Count(ts[..x]) == Index(t, p) + 1 + |At(t, p).props|
    ensures
      var ts', t' := ts[..x] + [BeginNode(name), EndNode] + ts[x..], Replace(t, p, Adopted(At(t, p), name));
      Pos(ts', x) == Pos(ts, x) && NodeToken(ts', x, t', p + [0])
  {
    hide Count, TotalLen, At, Index, IsPath, Replace;
    var ts', t' := ts[..x] + [BeginNode(name), EndNode] + ts[x..], Replace(t, p, Adopted(At(t, p), name));
    assert ts'[..x] == ts[..x];
    ReplacedAt(t, p, Adopted(At(t, p), name));
    ChildPath(t', p, 0);
    assert FlatAll(At(t', p).children[..0]) == [];
  }

  /** fdt_add_subnode. */
  method AddNode(fdt: Blob, parentoffset: int, name: Name,
                 ghost ts: seq<Token>, ghost t: Node, ghost rs: seq<Reserve>, ghost k: nat)
    returns (offset: int, ghost p: Path, ghost ts': seq<Token>, ghost t': Node, ghost x: nat)
    requires TreeBlob(fdt, ts, t, rs) && k < |ts| && ts[k].BeginNode? && parentoffset == Pos(ts, k)
    requires 0 !in name && |name| < 0x4000_0000
    modifies fdt`sizeStruct, fdt`offStrings, fdt.buf
    ensures NodeToken(ts, k, t, p) && TreeBlob(fdt, ts', t', rs)
    ensures offset >= 0 || offset == -EXISTS || offset == -NOSPACE
    ensures offset == -EXISTS <==> HasFit(At(t, p), name)
    ensures offset == -NOSPACE <==>
      !HasFit(At(t, p), name) && old(fdt.offStrings + fdt.sizeStrings) + Len(BeginNode(name)) + 4 > fdt.totalsize
    ensures t' == if offset >= 0 then Replace(t, p, Adopted(At(t, p), name)) else t
    ensures offset >= 0 ==> NodeToken(ts', x, t', p + [0]) && offset == Pos(ts', x)
  {
    hide Editable, Reserves, TreeTokens, IsPath, Replace, At, Index, Flat, StringsOf, Means, Stream, Pos, Kept, Count,
      NoneFits, NodeAt, PlaceOf, AllInert, HasFit;
    ghost var h, data := fdt.Head(), fdt.buf[..];
    p := NodeOf(h, data, ts, t, k);
    ghost var n := PlaceOfToken(StringsOf(h, data), ts, t, p, k);
    KidsBounds(ts, n);
    NoneFitsIff(ts, n, At(t, p), name);
    offset, x := AddSubnode(fdt, parentoffset, name, ts, Flat(t) + [Finish], n);
    if offset >= 0 {
      AddSubnodeRefines(StringsOf(h, data), ts, t, p, k, x, name);
      EndOfProps(StringsOf(h, data), ts, t, p, k, x);
      AddedToken(ts, t, p, x, name);
      ts', t' := ts[..x] + [BeginNode(name), EndNode] + ts[x..], Replace(t, p, Adopted(At(t, p), name));
    } else {
      ts', t' := ts, t;
    }
    EditBounds(fdt.Head(), fdt.buf[..], ts', Flat(t') + [Finish]);
    ReservesKept(h, data, fdt.Head(), fdt.buf[..], rs);
  }

  /** The tree without a subnode. */
  ghost function WithoutChild(t: Node, p: Path, i: nat): Node
    requires IsPath(t, p) && i < |At(t, p).children|
  {
    Replace(t, p, At(t, p).(children := Without(At(t, p).children, i)))
  }

  /** fdt_del_node, for a node that is not the root. */
  method DeleteNode(fdt: Blob, nodeoffset: int, ghost ts: seq<Token>, ghost t: Node, ghost rs: seq<Reserve>,
                    ghost k: nat, ghost p: Path, ghost i: nat)
    returns (err: int, ghost ts': seq<Token>)
    requires TreeBlob(fdt, ts, t, rs) && IsPath(t, p) && i < |At(t, p).children|
    requires NodeToken(ts, k, t, p + [i]) && nodeoffset == Pos(ts, k)
    modifies fdt`sizeStruct, fdt`offStrings, fdt.buf
    ensures err == 0 && TreeBlob(fdt, ts', WithoutChild(t, p, i), rs)
  {
    hide Editable, Reserves, TreeTokens, IsPath, Replace, At, Index, Flat, StringsOf, Means, Stream, Pos, Kept, Count,
      NodeAt, PlaceOf;
    ghost var h, data := fdt.Head(), fdt.buf[..];
    ghost var q := NodeOf(h, data, ts, t, k);
    ghost var n := PlaceOfToken(StringsOf(h, data), ts, t, p + [i], k);
    KidsBounds(ts, n);
    err := DelNode(fdt, nodeoffset, ts, Flat(t) + [Finish], n);
    DelNodeRefines(StringsOf(h, data), ts, t, p, i, n);
    ts' := ts[..n.start] + ts[n.end..];
    EditBounds(fdt.Head(), fdt.buf[..], ts', Flat(WithoutChild(t, p, i)) + [Finish]);
    ReservesKept(h, data, fdt.Head(), fdt.buf[..], rs);
  }

  /** fdt_nop_node: the same tree as after fdt_del_node. */
  method NopOutNode(fdt: Blob, nodeoffset: int, ghost ts: seq<Token>, ghost t: Node, ghost rs: seq<Reserve>,
                    ghost k: nat, ghost p: Path, ghost i: nat)
    returns (err: int, ghost ts': seq<Token>)
    requires TreeBlob(fdt, ts, t, rs) && IsPath(t, p) && i < |At(t, p).children|
    requires NodeToken(ts, k, t, p + [i]) && nodeoffset == Pos(ts, k)
    modifies fdt.buf
    ensures err == 0 && TreeBlob(fdt, ts', WithoutChild(t, p, i), rs)
  {
    hide Editable, Reserves, TreeTokens, IsPath, Replace, At, Index, Flat, StringsOf, Means, Stream, Pos, Count,
      NodeAt, PlaceOf, Nops;
    ghost var h, data := fdt.Head(), fdt.buf[..];
    EditBounds(h, data, ts, Flat(t) + [Finish]);
    ghost var q := NodeOf(h, data, ts, t, k);
    ghost var n := PlaceOfToken(StringsOf(h, data), ts, t, p + [i], k);
    KidsBounds(ts, n);
    err := NopNode(fdt, nodeoffset, ts, Flat(t) + [Finish], n);
    DelNodeRefines(StringsOf(h, data), ts, t, p, i, n);
    ts' := ts[..n.start] + Nops((Pos(ts, n.end) - Pos(ts, n.start)) / 4) + ts[n.end..];
    EditBounds(fdt.Head(), fdt.buf[..], ts', Flat(WithoutChild(t, p, i)) + [Finish]);
    ChangedBehind(data, fdt.buf[..], h.offStruct + Pos(ts, n.start), h.offStruct + Pos(ts, n.end), h.offStruct);
    ReservesKept(h, data, fdt.Head(), fdt.buf[..], rs);
  }

  // ---- packing ----

  lemma ReservesPacked(h: Header, data: seq<Byte>, h': Header, data': seq<Byte>, rs: seq<Reserve>)
    requires Reserves(h, data, rs) && InOrder(h', |data'|)
    requires h'.offRsv == HEADER_SIZE && h'.offStruct == HEADER_SIZE + 16 * |rs|
    requires h.offRsv + 16 * |rs| <= |data|
    requires data'[HEADER_SIZE..HEADER_SIZE + 16 * |rs|] == data[h.offRsv..h.offRsv + 16 * |rs|]
    ensures Reserves(h', data', rs)
  {
    hide MapAt;
    MapMoved(data, h.offRsv, data', HEADER_SIZE, rs);
  }

  lemma ReservesBound(h: Header, data: seq<Byte>, rs: seq<Reserve>)
    requires Reserves(h, data, rs)
    ensures rs != [] && h.offRsv + 16 * |rs| <= |data|
  {
    hide MapAt;
  }

  /** fdt_pack: the tree and the reservations stay, and no free space. */
  method PackTree(fdt: Blob, ghost ts: seq<Token>, ghost t: Node, ghost rs: seq<Reserve>) returns (err: int)
    requires TreeBlob(fdt, ts, t, rs)
    modifies fdt, fdt.buf
    ensures err == 0 && TreeBlob(fdt, ts, t, rs)
    ensures fdt.totalsize == HEADER_SIZE + 16 * |rs| + fdt.sizeStruct + fdt.sizeStrings <= old(fdt.totalsize)
  {
    hide Editable, Flat, Reserves, MapOf;
    ghost var h, data, items, n := fdt.Head(), fdt.buf[..], Flat(t) + [Finish], 16 * |rs|;
    ReservesAreMap(h, data, rs);
    ReservesBound(h, data, rs);
    err := Pack(fdt, ts, items, |rs| - 1);
    EditBounds(fdt.Head(), fdt.buf[..], ts, items);
    assert fdt.buf[..][HEADER_SIZE..HEADER_SIZE + n] == fdt.buf[HEADER_SIZE..HEADER_SIZE + n] == data[h.offRsv..h.offRsv + n];
    ReservesPacked(h, data, fdt.Head(), fdt.buf[..], rs);
  }
}
