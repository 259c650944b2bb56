/** What a flattened device tree means: a tree of named nodes with properties. */
module FdtTree {

  import opened FdtFormat

  type Name = seq<Byte>

  datatype Property = Property(name: Name, value: seq<Byte>)

  datatype Node = Node(name: Name, props: seq<Property>, children: seq<Node>)

  /** The tree in one line: properties before subnodes. */
  datatype Item = Begin(name: Name) | Has(prop: Property) | EndOf | Finish

  function FlatProps(props: seq<Property>): (s: seq<Item>)
    ensures |s| == |props| && forall i :: 0 <= i < |s| ==> s[i] == Has(props[i])
  {
    seq(|props|, i requires 0 <= i < |props| => Has(props[i]))
  }

  function Flat(n: Node): seq<Item>
    decreases n
  {
    [Begin(n.name)] + FlatProps(n.props) + FlatAll(n.children) + [EndOf]
  }

  function FlatAll(ns: seq<Node>): seq<Item>
    decreases ns
  {
    if ns == [] then [] else Flat(ns[0]) + FlatAll(ns[1..])
  }

  /** The items of a node do not end the blob. */
  lemma {:induction false} NoFinish(n: Node)
    ensures Finish !in Flat(n)
    decreases n
  {
    forall i | 0 <= i < |n.children| ensures Finish !in Flat(n.children[i]) {
      NoFinish(n.children[i]);
    }
    NoFinishAll(n.children);
  }

  lemma {:induction false} NoFinishAll(ns: seq<Node>)
    requires forall i :: 0 <= i < |ns| ==> Finish !in Flat(ns[i])
    ensures Finish !in FlatAll(ns)
  {
    hide Flat;
    if ns != [] {
      NoFinishAll(ns[1..]);
    }
  }

  // ---- names ----

  /** The string that starts at an offset into the strings block. */
  predicate NameAt(strings: seq<Byte>, off: nat, name: Name) {
    && off + |name| < |strings| && strings[off..off + |name|] == name && strings[off + |name|] == 0 && 0 !in name
  }

  lemma NameUnique(strings: seq<Byte>, off: nat, a: Name, b: Name)
    requires NameAt(strings, off, a) && NameAt(strings, off, b)
    ensures a == b
  {
    NotNul(strings, off, a);
    NotNul(strings, off, b);
    assert |a| == |b|;
  }

  /** A name ends at the first zero byte. */
  lemma NotNul(b: seq<Byte>, off: nat, name: Name)
    requires off + |name| <= |b| && b[off..off + |name|] == name && 0 !in name
    ensures forall k :: off <= k < off + |name| ==> b[k] != 0
  {
    forall k | off <= k < off + |name| ensures b[k] != 0 {
      assert b[k] == name[k - off];
    }
  }

  lemma NameStays(strings: seq<Byte>, more: seq<Byte>, off: nat, name: Name)
    requires NameAt(strings, off, name)
    ensures NameAt(strings + more, off, name)
  {
    assert (strings + more)[off..off + |name|] == strings[off..off + |name|];
  }

  // ---- tokens and what they mean ----

  predicate Matches(strings: seq<Byte>, t: Token, item: Item) {
    match t
    case BeginNode(name) => item == Begin(name)
    case EndNode => item == EndOf
    case Prop(off, value) => item.Has? && NameAt(strings, off, item.prop.name) && item.prop.value == value
    case Nop => false
    case End => item == Finish
  }

  /** The tokens stand for these items; nops stand for nothing. */
  predicate Means(strings: seq<Byte>, ts: seq<Token>, items: seq<Item>) {
    if ts == [] then items == []
    else if ts[0] == Nop then Means(strings, ts[1..], items)
    else items != [] && Matches(strings, ts[0], items[0]) && Means(strings, ts[1..], items[1..])
  }

  lemma MeansOne(strings: seq<Byte>, t: Token, item: Item)
    requires Matches(strings, t, item)
    ensures Means(strings, [t], [item])
  {
    assert [t][1..] == [] && [item][1..] == [];
  }

  lemma {:induction false} MeansConcat(strings: seq<Byte>, ts: seq<Token>, items: seq<Item>, us: seq<Token>, more: seq<Item>)
    requires Means(strings, ts, items) && Means(strings, us, more)
    ensures Means(strings, ts + us, items + more)
  {
    if ts == [] {
      assert ts + us == us && items + more == more;
    } else {
      assert (ts + us)[1..] == ts[1..] + us;
      if ts[0] == Nop {
        MeansConcat(strings, ts[1..], items, us, more);
      } else {
        MeansConcat(strings, ts[1..], items[1..], us, more);
        assert (items + more)[1..] == items[1..] + more;
      }
    }
  }

  /** How many items tokens stand for. */
  function Count(ts: seq<Token>): nat {
    if ts == [] then 0 else (if ts[0] == Nop then 0 else 1) + Count(ts[1..])
  }

  lemma {:induction false} MeansSplit(strings: seq<Byte>, ts: seq<Token>, us: seq<Token>, items: seq<Item>)
    requires Means(strings, ts + us, items)
    ensures Count(ts) <= |items|
    ensures Means(strings, ts, items[..Count(ts)]) && Means(strings, us, items[Count(ts)..])
  {
    if ts == [] {
      assert ts + us == us && items[0..] == items;
    } else {
      assert (ts + us)[1..] == ts[1..] + us;
      if ts[0] == Nop {
        MeansSplit(strings, ts[1..], us, items);
      } else {
        MeansSplit(strings, ts[1..], us, items[1..]);
        var c := Count(ts[1..]);
        assert items[..c + 1][1..] == items[1..][..c] && items[1..][c..] == items[c + 1..];
      }
    }
  }

  lemma {:induction false} MeansUnique(strings: seq<Byte>, ts: seq<Token>, a: seq<Item>, b: seq<Item>)
    requires Means(strings, ts, a) && Means(strings, ts, b)
    ensures a == b
  {
    if ts != [] {
      if ts[0] == Nop {
        MeansUnique(strings, ts[1..], a, b);
      } else {
        MeansUnique(strings, ts[1..], a[1..], b[1..]);
        if ts[0].Prop? {
          NameUnique(strings, ts[0].nameoff, a[0].prop.name, b[0].prop.name);
        }
        assert a == [a[0]] + a[1..] && b == [b[0]] + b[1..];
      }
    }
  }

  /** New strings behind the old ones change no meaning. */
  lemma {:induction false} MeansStays(strings: seq<Byte>, more: seq<Byte>, ts: seq<Token>, items: seq<Item>)
    requires Means(strings, ts, items)
    ensures Means(strings + more, ts, items)
  {
    if ts != [] {
      if ts[0] == Nop {
        MeansStays(strings, more, ts[1..], items);
      } else {
        MeansStays(strings, more, ts[1..], items[1..]);
        if ts[0].Prop? {
          NameStays(strings, more, ts[0].nameoff, items[0].prop.name);
        }
      }
    }
  }

  // ---- the tree is determined by its bytes ----

  lemma {:induction false} StreamUnique(b: seq<Byte>, ts: seq<Token>, us: seq<Token>)
    requires Stream(b, ts) && Stream(b, us)
    ensures ts == us
  {
    hide Encodes;
    if ts == [] || us == [] {
      StreamLen(b, ts);
      StreamLen(b, us);
    } else {
      TokenUnique(b, ts[0], us[0]);
      StreamUnique(b[Len(ts[0])..], ts[1..], us[1..]);
      assert ts == [ts[0]] + ts[1..] && us == [us[0]] + us[1..];
    }
  }

  lemma TokenUnique(b: seq<Byte>, t: Token, u: Token)
    requires Len(t) <= |b| && Encodes(b[..Len(t)], t)
    requires Len(u) <= |b| && Encodes(b[..Len(u)], u)
    ensures t == u
  {
    WordsAgree(b, Len(t), Len(u));
    if t.BeginNode? {
      var m, n := |t.name|, |u.name|;
      assert b[..Len(t)][4..4 + m] == b[4..4 + m] && b[..Len(u)][4..4 + n] == b[4..4 + n];
      NotNul(b, 4, t.name);
      NotNul(b, 4, u.name);
      assert m == n;
    } else if t.Prop? {
      var n := |t.value|;
      assert b[..Len(t)][12..12 + n] == b[12..12 + n] && b[..Len(u)][12..12 + n] == b[12..12 + n];
    }
  }

  lemma WordsAgree(b: seq<Byte>, m: nat, n: nat)
    requires m <= |b| && n <= |b|
    ensures forall i: nat {:trigger Word(b[..m], i)} {:trigger Word(b[..n], i)} ::
      i + 4 <= m && i + 4 <= n ==> Word(b[..m], i) == Word(b[..n], i)
  {
  }

  lemma {:induction false} FlatUnique(n: Node, m: Node, r: seq<Item>, s: seq<Item>)
    requires Flat(n) + r == Flat(m) + s
    ensures n == m && r == s
    decreases n
  {
    var a, b := FlatAll(n.children) + [EndOf] + r, FlatAll(m.children) + [EndOf] + s;
    assert Flat(n) + r == [Begin(n.name)] + FlatProps(n.props) + a;
    assert Flat(m) + s == [Begin(m.name)] + FlatProps(m.props) + b;
    assert (Flat(n) + r)[0] == (Flat(m) + s)[0];
    PropsUnique(n.name, n.props, m.props, n.children, m.children, r, s);
    FlatAllUnique(n.children, m.children, r, s);
  }

  lemma PropsUnique(name: Name, p: seq<Property>, q: seq<Property>, c: seq<Node>, d: seq<Node>, r: seq<Item>, s: seq<Item>)
    requires [Begin(name)] + FlatProps(p) + (FlatAll(c) + [EndOf] + r)
        == [Begin(name)] + FlatProps(q) + (FlatAll(d) + [EndOf] + s)
    ensures p == q && FlatAll(c) + [EndOf] + r == FlatAll(d) + [EndOf] + s
  {
    var a, b := FlatAll(c) + [EndOf] + r, FlatAll(d) + [EndOf] + s;
    var x, y := [Begin(name)] + FlatProps(p) + a, [Begin(name)] + FlatProps(q) + b;
    FirstOfAll(c, r);
    FirstOfAll(d, s);
    PropsFirst(name, p, a);
    PropsFirst(name, q, b);
    assert |p| == |q|;
    forall i | 0 <= i < |p| ensures p[i] == q[i] {
      assert x[1 + i] == y[1 + i];
    }
    assert x[1 + |p|..] == a && y[1 + |q|..] == b;
  }

  /** The properties of a node are the items up to the first that is not one. */
  lemma PropsFirst(name: Name, p: seq<Property>, a: seq<Item>)
    requires a != [] && !a[0].Has?
    ensures
      var x := [Begin(name)] + FlatProps(p) + a;
      && (forall i :: 0 <= i < |p| ==> x[1 + i] == Has(p[i])) && !x[1 + |p|].Has?
  {
    var x := [Begin(name)] + FlatProps(p) + a;
    assert x[1 + |p|] == a[0];
    forall i | 0 <= i < |p| ensures x[1 + i] == Has(p[i]) {
      assert x[1 + i] == FlatProps(p)[i];
    }
  }

  lemma FirstOfAll(c: seq<Node>, r: seq<Item>)
    ensures var a := FlatAll(c) + [EndOf] + r; a != [] && !a[0].Has?
    ensures var a := FlatAll(c) + [EndOf] + r; a[0] == EndOf <==> c == []
  {
    if c != [] {
      assert Flat(c[0])[0] == Begin(c[0].name);
    }
  }

  lemma {:induction false} FlatAllUnique(c: seq<Node>, d: seq<Node>, r: seq<Item>, s: seq<Item>)
    requires FlatAll(c) + [EndOf] + r == FlatAll(d) + [EndOf] + s
    ensures c == d && r == s
    decreases c
  {
    FirstOfAll(c, r);
    FirstOfAll(d, s);
    if c == [] {
      assert FlatAll(c) + [EndOf] + r == [EndOf] + r;
      assert ([EndOf] + r)[1..] == r && ([EndOf] + s)[1..] == s;
    } else {
      var x, y := FlatAll(c[1..]) + [EndOf] + r, FlatAll(d[1..]) + [EndOf] + s;
      assert FlatAll(c) + [EndOf] + r == Flat(c[0]) + x;
      assert FlatAll(d) + [EndOf] + s == Flat(d[0]) + y;
      FlatUnique(c[0], d[0], x, y);
      FlatAllUnique(c[1..], d[1..], r, s);
      assert c == [c[0]] + c[1..] && d == [d[0]] + d[1..];
    }
  }

  /** A structure block and a strings block hold this tree. */
  ghost predicate Holds(b: seq<Byte>, strings: seq<Byte>, tree: Node) {
    exists ts :: Stream(b, ts) && Means(strings, ts, Flat(tree) + [Finish])
  }

  lemma TreeUnique(b: seq<Byte>, strings: seq<Byte>, n: Node, m: Node)
    requires Holds(b, strings, n) && Holds(b, strings, m)
    ensures n == m
  {
    var ts :| Stream(b, ts) && Means(strings, ts, Flat(n) + [Finish]);
    var us :| Stream(b, us) && Means(strings, us, Flat(m) + [Finish]);
    StreamUnique(b, ts, us);
    MeansUnique(strings, ts, Flat(n) + [Finish], Flat(m) + [Finish]);
    FlatUnique(n, m, [Finish], [Finish]);
  }
}
