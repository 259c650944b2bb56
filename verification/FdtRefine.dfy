/** Edits of a blob are edits of its tree: what changes in the line of items is what the matching operation on the
    tree changes. */
module FdtRefine {

  import opened FdtFormat
  import opened FdtTree
  import opened FdtReader
  import opened FdtEdit

  // ---- a node in its tree ----

  /** The way down from the root, by the index of a subnode at each step. */
  type Path = seq<nat>

  ghost predicate IsPath(t: Node, p: Path)
    decreases p
  {
    p == [] || (p[0] < |t.children| && IsPath(t.children[p[0]], p[1..]))
  }

  ghost function At(t: Node, p: Path): Node
    requires IsPath(t, p)
    decreases p
  {
    if p == [] then t else At(t.children[p[0]], p[1..])
  }

  ghost function Replace(t: Node, p: Path, n: Node): Node
    requires IsPath(t, p)
    decreases p
  {
    if p == [] then n else t.(children := t.children[p[0] := Replace(t.children[p[0]], p[1..], n)])
  }

  /** Where the node at a path begins among the items of the tree. */
  ghost function Index(t: Node, p: Path): nat
    requires IsPath(t, p)
    decreases p
  {
    if p == [] then 0 else 1 + |t.props| + |FlatAll(t.children[..p[0]])| + Index(t.children[p[0]], p[1..])
  }

  lemma {:induction false} FlatAllConcat(a: seq<Node>, b: seq<Node>)
    ensures FlatAll(a + b) == FlatAll(a) + FlatAll(b)
  {
    if a == [] {
      assert a + b == b;
    } else {
      assert (a + b)[1..] == a[1..] + b;
      FlatAllConcat(a[1..], b);
    }
  }

  lemma FlatAllOne(n: Node)
    ensures FlatAll([n]) == Flat(n)
  {
    assert [n][1..] == [];
  }

  /** The items before subnode i, and those behind it. */
  ghost function Before(t: Node, i: nat): seq<Item>
    requires i <= |t.children|
  {
    [Begin(t.name)] + FlatProps(t.props) + FlatAll(t.children[..i])
  }

  ghost function Behind(t: Node, i: nat): seq<Item>
    requires i <= |t.children|
  {
    FlatAll(t.children[i..]) + [EndOf]
  }

  lemma SplitAt(t: Node, i: nat)
    requires i <= |t.children|
    ensures Flat(t) == Before(t, i) + Behind(t, i) && |Before(t, i)| == 1 + |t.props| + |FlatAll(t.children[..i])|
  {
    assert t.children == t.children[..i] + t.children[i..];
    FlatAllConcat(t.children[..i], t.children[i..]);
  }

  lemma SplitAround(t: Node, i: nat)
    requires i < |t.children|
    ensures Flat(t) == Before(t, i) + Flat(t.children[i]) + Behind(t, i + 1)
  {
    SplitAt(t, i);
    assert t.children[i..] == [t.children[i]] + t.children[i + 1..];
    FlatAllConcat([t.children[i]], t.children[i + 1..]);
    FlatAllOne(t.children[i]);
  }

  /** A subnode replaced. */
  lemma ChildReplaced(t: Node, i: nat, n: Node)
    requires i < |t.children|
    ensures Flat(t.(children := t.children[i := n])) == Before(t, i) + Flat(n) + Behind(t, i + 1)
  {
    hide Flat;
    var t' := t.(children := t.children[i := n]);
    SplitAround(t', i);
    assert t'.children[..i] == t.children[..i] && t'.children[i + 1..] == t.children[i + 1..];
  }

  /** A node replaced in its tree: the items around it stay. */
  lemma {:induction false} ReplacedItems(t: Node, p: Path, n: Node)
    requires IsPath(t, p)
    ensures
      var i, o := Index(t, p), Flat(At(t, p));
      && i + |o| <= |Flat(t)| && Flat(t)[i..i + |o|] == o
      && Flat(Replace(t, p, n)) == Flat(t)[..i] + Flat(n) + Flat(t)[i + |o|..]
    decreases p
  {
    hide Flat, Before, Behind;
    if p == [] {
      assert Flat(t)[..0] == [] && Flat(t)[|Flat(t)|..] == [];
    } else {
      var c := t.children[p[0]];
      ReplacedItems(c, p[1..], n);
      SplitAround(t, p[0]);
      SplitAt(t, p[0]);
      ChildReplaced(t, p[0], Replace(c, p[1..], n));
      var b, i, o := Before(t, p[0]), Index(c, p[1..]), Flat(At(c, p[1..]));
      Nested(b, Flat(c), Behind(t, p[0] + 1), i, |o|, Flat(n));
    }
  }

  lemma Nested<T>(b: seq<T>, c: seq<T>, d: seq<T>, i: nat, n: nat, x: seq<T>)
    requires i + n <= |c|
    ensures
      var s := b + c + d;
      && s[|b| + i..|b| + i + n] == c[i..i + n]
      && b + (c[..i] + x + c[i + n..]) + d == s[..|b| + i] + x + s[|b| + i + n..]
  {
    var s := b + c + d;
    assert s[..|b| + i] == b + c[..i];
    assert s[|b| + i + n..] == c[i + n..] + d;
    assert s[|b| + i..|b| + i + n] == c[i..i + n];
  }

  /** Every node among the items is at a path. */
  lemma {:induction false} BeginHasPath(t: Node, c: nat) returns (p: Path)
    requires c < |Flat(t)| && Flat(t)[c].Begin?
    ensures IsPath(t, p) && Index(t, p) == c && At(t, p).name == Flat(t)[c].name
    decreases t
  {
    hide FlatAll;
    if c == 0 {
      p := [];
    } else {
      var d := c - 1 - |t.props|;
      forall k | 0 <= k < |t.props| ensures Flat(t)[1 + k] == FlatProps(t.props)[k] {
      }
      assert c >= 1 + |t.props|;
      assert Flat(t)[c] == (FlatAll(t.children) + [EndOf])[d];
      var i, q := BeginInAll(t.children, d);
      p := [i] + q;
      assert p[1..] == q;
    }
  }

  lemma {:induction false} BeginInAll(ns: seq<Node>, d: nat) returns (i: nat, q: Path)
    requires d < |FlatAll(ns)| && FlatAll(ns)[d].Begin?
    ensures i < |ns| && IsPath(ns[i], q) && |FlatAll(ns[..i])| + Index(ns[i], q) == d && At(ns[i], q).name == FlatAll(ns)[d].name
    decreases ns
  {
    hide Flat;
    if d < |Flat(ns[0])| {
      i := 0;
      assert FlatAll(ns)[d] == Flat(ns[0])[d];
      q := BeginHasPath(ns[0], d);
    } else {
      assert FlatAll(ns)[d] == FlatAll(ns[1..])[d - |Flat(ns[0])|];
      i, q := BeginInAll(ns[1..], d - |Flat(ns[0])|);
      i := i + 1;
      assert ns[..i][1..] == ns[1..][..i - 1];
    }
  }

  // ---- operations on a node ----

  function Without<T>(s: seq<T>, i: nat): seq<T>
    requires i < |s|
  {
    s[..i] + s[i + 1..]
  }

  /** Behind the name: the properties, then the rest. */
  lemma PropsOf(n: Node)
    ensures Flat(n) == [Begin(n.name)] + FlatProps(n.props) + (FlatAll(n.children) + [EndOf])
  {
  }

  lemma PropRemoved(n: Node, i: nat)
    requires i < |n.props|
    ensures |Flat(n)| > 1 + i && Flat(n.(props := Without(n.props, i))) == Without(Flat(n), 1 + i)
  {
    hide Flat;
    var rest := FlatAll(n.children) + [EndOf];
    PropsOf(n);
    PropsOf(n.(props := Without(n.props, i)));
    assert FlatProps(Without(n.props, i)) == FlatProps(n.props)[..i] + FlatProps(n.props)[i + 1..];
    OneOut([Begin(n.name)], FlatProps(n.props), rest, i);
  }

  lemma OneOut<T>(a: seq<T>, b: seq<T>, c: seq<T>, i: nat)
    requires i < |b|
    ensures a + (b[..i] + b[i + 1..]) + c == Without(a + b + c, |a| + i)
  {
    var s := a + b + c;
    assert s[..|a| + i] == a + b[..i];
    assert s[|a| + i + 1..] == b[i + 1..] + c;
  }

  lemma PropChanged(n: Node, i: nat, p: Property)
    requires i < |n.props|
    ensures |Flat(n)| > 1 + i && Flat(n.(props := n.props[i := p])) == Flat(n)[1 + i := Has(p)]
  {
    hide Flat;
    PropsOf(n);
    PropsOf(n.(props := n.props[i := p]));
    assert FlatProps(n.props[i := p]) == FlatProps(n.props)[i := Has(p)];
    OneChanged([Begin(n.name)], FlatProps(n.props), FlatAll(n.children) + [EndOf], i, Has(p));
  }

  lemma OneChanged<T>(a: seq<T>, b: seq<T>, c: seq<T>, i: nat, x: T)
    requires i < |b|
    ensures a + b[i := x] + c == (a + b + c)[|a| + i := x]
  {
  }

  lemma PropAdded(n: Node, p: Property)
    ensures |Flat(n)| >= 1 && Flat(n.(props := [p] + n.props)) == Flat(n)[..1] + [Has(p)] + Flat(n)[1..]
  {
    hide Flat;
    PropsOf(n);
    PropsOf(n.(props := [p] + n.props));
    assert FlatProps([p] + n.props) == [Has(p)] + FlatProps(n.props);
    var rest := FlatProps(n.props) + (FlatAll(n.children) + [EndOf]);
    assert Flat(n) == [Begin(n.name)] + rest;
  }

  lemma NameChanged(n: Node, name: Name)
    ensures |Flat(n)| >= 1 && Flat(n.(name := name)) == Flat(n)[0 := Begin(name)]
  {
    hide Flat;
    PropsOf(n);
    PropsOf(n.(name := name));
  }

  /** A new first subnode. */
  lemma ChildAdded(n: Node, c: Node)
    ensures |Flat(n)| > 1 + |n.props|
    ensures Flat(n.(children := [c] + n.children)) == Flat(n)[..1 + |n.props|] + Flat(c) + Flat(n)[1 + |n.props|..]
  {
    hide Flat;
    PropsOf(n);
    PropsOf(n.(children := [c] + n.children));
    FlatAllConcat([c], n.children);
    FlatAllOne(c);
    var a, rest := [Begin(n.name)] + FlatProps(n.props), FlatAll(n.children) + [EndOf];
    assert Flat(n)[..1 + |n.props|] == a && Flat(n)[1 + |n.props|..] == rest;
    assert FlatAll(n.children) + [EndOf] == rest;
    assert (Flat(c) + FlatAll(n.children)) + [EndOf] == Flat(c) + rest;
  }

  /** A subnode taken out. */
  lemma ChildRemoved(n: Node, i: nat)
    requires i < |n.children|
    ensures
      var a := 1 + |n.props| + |FlatAll(n.children[..i])|;
      && a + |Flat(n.children[i])| <= |Flat(n)|
      && Flat(n.(children := Without(n.children, i))) == Flat(n)[..a] + Flat(n)[a + |Flat(n.children[i])|..]
  {
    hide Flat;
    var m := n.(children := Without(n.children, i));
    SplitAround(n, i);
    SplitAt(n, i);
    SplitAt(m, i);
    assert m.children[..i] == n.children[..i] && m.children[i..] == n.children[i + 1..];
  }

  // ---- the node and its properties in the stream ----

  /** The token that is not a nop stands for the item at its place. */
  lemma TokenMeans(strings: seq<Byte>, ts: seq<Token>, items: seq<Item>, y: nat)
    requires Means(strings, ts, items) && y < |ts| && !ts[y].Nop?
    ensures Count(ts[..y]) < |items| && Matches(strings, ts[y], items[Count(ts[..y])])
    ensures Count(ts[..y + 1]) == Count(ts[..y]) + 1
  {
    hide Means, Matches, Count;
    assert ts == ts[..y] + ts[y..];
    MeansSplit(strings, ts[..y], ts[y..], items);
    MeansFirst(strings, ts[y..], items[Count(ts[..y])..]);
    CountNext(ts, y);
  }

  lemma MeansFirst(strings: seq<Byte>, ts: seq<Token>, items: seq<Item>)
    requires Means(strings, ts, items) && ts != [] && !ts[0].Nop?
    ensures items != [] && Matches(strings, ts[0], items[0])
  {
  }

  /** Token k is where the node at a path of the tree begins. */
  ghost predicate NodeToken(ts: seq<Token>, k: nat, t: Node, p: Path) {
    k < |ts| && ts[k].BeginNode? && IsPath(t, p) && Count(ts[..k]) == Index(t, p)
  }

  /** The tokens and strings of a blob that holds a tree. */
  ghost predicate TreeTokens(strings: seq<Byte>, ts: seq<Token>, t: Node) {
    Means(strings, ts, Flat(t) + [Finish])
  }

  /** The items of a node, in the items of its tree. */
  lemma ItemsAt(t: Node, p: Path)
    requires IsPath(t, p)
    ensures
      var c, n := Index(t, p), At(t, p);
      && c + |Flat(n)| <= |Flat(t)| && Flat(t)[c..c + |Flat(n)|] == Flat(n)
      && |Flat(n)| >= 2 + |n.props|
      && Flat(t)[c] == Begin(n.name)
      && (forall i :: 0 <= i < |n.props| ==> Flat(t)[c + 1 + i] == Has(n.props[i])) && !Flat(t)[c + 1 + |n.props|].Has?
  {
    hide Flat, IsPath, At, Index;
    var n := At(t, p);
    ReplacedItems(t, p, n);
    NodeItems(n);
    Lifted(Flat(t), Index(t, p), Flat(n), n.name, n.props);
  }

  lemma NodeItems(n: Node)
    ensures |Flat(n)| >= 2 + |n.props| && Flat(n)[0] == Begin(n.name)
    ensures (forall i :: 0 <= i < |n.props| ==> Flat(n)[1 + i] == Has(n.props[i])) && !Flat(n)[1 + |n.props|].Has?
  {
    hide Flat;
    PropsOf(n);
    FirstOfAll(n.children, []);
    assert FlatAll(n.children) + [EndOf] + [] == FlatAll(n.children) + [EndOf];
    PropsFirst(n.name, n.props, FlatAll(n.children) + [EndOf]);
  }

  lemma Lifted(s: seq<Item>, c: nat, o: seq<Item>, name: Name, props: seq<Property>)
    requires c + |o| <= |s| && s[c..c + |o|] == o && |o| >= 2 + |props| && o[0] == Begin(name)
    requires (forall i :: 0 <= i < |props| ==> o[1 + i] == Has(props[i])) && !o[1 + |props|].Has?
    ensures s[c] == Begin(name) && !s[c + 1 + |props|].Has?
    ensures forall i :: 0 <= i < |props| ==> s[c + 1 + i] == Has(props[i])
  {
    forall i | 0 <= i < |props| ensures s[c + 1 + i] == Has(props[i]) {
      assert s[c + 1 + i] == s[c..c + |o|][1 + i];
    }
    assert s[c] == s[c..c + |o|][0] && s[c + 1 + |props|] == s[c..c + |o|][1 + |props|];
  }

  ghost predicate FirstNamed(props: seq<Property>, name: Name, i: nat) {
    i < |props| && props[i].name == name && forall j :: 0 <= j < i ==> props[j].name != name
  }

  ghost predicate NoneNamed(props: seq<Property>, name: Name) {
    forall j :: 0 <= j < |props| ==> props[j].name != name
  }

  /** Up to token x, the properties of the node have been passed that come before property i; none has the name. */
  lemma {:induction false} PropsPassed(strings: seq<Byte>, ts: seq<Token>, t: Node, p: Path, k: nat, name: Name, x: nat)
    returns (i: nat)
    requires TreeTokens(strings, ts, t) && NodeToken(ts, k, t, p) && PropertyAt(strings, ts, k, name, x)
    ensures i <= |At(t, p).props| && Count(ts[..x]) == Index(t, p) + 1 + i
    ensures forall j :: 0 <= j < i ==> At(t, p).props[j].name != name
    decreases x
  {
    hide Means, Flat, Count, NameAt, IsPath, At, Index;
    ItemsAt(t, p);
    var items := Flat(t) + [Finish];
    if x == k + 1 {
      TokenMeans(strings, ts, items, k);
      i := 0;
    } else {
      i := PropsPassed(strings, ts, t, p, k, name, x - 1);
      if ts[x - 1].Prop? {
        TokenMeans(strings, ts, items, x - 1);
        NameIs(strings, ts[x - 1].nameoff, items[Count(ts[..x - 1])].prop.name, name);
        i := i + 1;
      } else {
        NopCounts(ts, x - 1);
      }
    }
  }

  lemma NameIs(strings: seq<Byte>, off: nat, a: Name, b: Name)
    requires NameAt(strings, off, a)
    ensures a == b <==> NameAt(strings, off, b)
  {
    if NameAt(strings, off, b) {
      NameUnique(strings, off, a, b);
    }
  }

  lemma NopCounts(ts: seq<Token>, y: nat)
    requires y < |ts| && ts[y].Nop?
    ensures Count(ts[..y + 1]) == Count(ts[..y])
  {
    assert ts[..y + 1] == ts[..y] + [ts[y]];
    CountConcat(ts[..y], [ts[y]]);
    assert [ts[y]][1..] == [];
  }

  /** The property found is the first of the node with the name. */
  lemma FoundProperty(strings: seq<Byte>, ts: seq<Token>, t: Node, p: Path, k: nat, name: Name, x: nat) returns (i: nat)
    requires TreeTokens(strings, ts, t) && NodeToken(ts, k, t, p) && PropertyAt(strings, ts, k, name, x)
    requires ts[x].Prop? && NameAt(strings, ts[x].nameoff, name)
    ensures FirstNamed(At(t, p).props, name, i) && Count(ts[..x]) == Index(t, p) + 1 + i
    ensures At(t, p).props[i].value == ts[x].value
  {
    hide Means, Flat, Count, NameAt, IsPath, At, Index, PropertyAt;
    var items := Flat(t) + [Finish];
    ItemsAt(t, p);
    i := PropsPassed(strings, ts, t, p, k, name, x);
    InRange(strings, ts, k, name, x);
    TokenMeans(strings, ts, items, x);
    NameIs(strings, ts[x].nameoff, items[Count(ts[..x])].prop.name, name);
  }

  lemma InRange(strings: seq<Byte>, ts: seq<Token>, k: nat, name: Name, x: nat)
    requires PropertyAt(strings, ts, k, name, x)
    ensures k < x < |ts|
  {
  }

  /** Where the properties end without one of that name, the node has none. */
  lemma MissingProperty(strings: seq<Byte>, ts: seq<Token>, t: Node, p: Path, k: nat, name: Name, x: nat)
    requires TreeTokens(strings, ts, t) && NodeToken(ts, k, t, p) && PropertyAt(strings, ts, k, name, x) && !Inert(ts[x])
    ensures NoneNamed(At(t, p).props, name) && Count(ts[..x]) == Index(t, p) + 1 + |At(t, p).props|
  {
    hide Means, Flat, Count, NameAt, IsPath, At, Index, PropertyAt;
    var items := Flat(t) + [Finish];
    ItemsAt(t, p);
    var i := PropsPassed(strings, ts, t, p, k, name, x);
    InRange(strings, ts, k, name, x);
    assert i < |At(t, p).props| ==> Flat(t)[Index(t, p) + 1 + i] == Has(At(t, p).props[i]);
    TokenMeans(strings, ts, items, x);
  }

  // ---- edits refine operations on the tree ----

  /** Items taken out, put in or changed inside a node, in the items of the whole tree. */
  lemma Spread(t: Node, p: Path, n: Node, i: nat, j: nat, x: seq<Item>)
    requires IsPath(t, p) && i <= j <= |Flat(At(t, p))| && Flat(n) == Flat(At(t, p))[..i] + x + Flat(At(t, p))[j..]
    ensures Index(t, p) + j <= |Flat(t)|
    ensures Flat(Replace(t, p, n)) == Flat(t)[..Index(t, p) + i] + x + Flat(t)[Index(t, p) + j..]
  {
    hide Flat, IsPath, At, Index;
    ReplacedItems(t, p, n);
    var c, o, s := Index(t, p), Flat(At(t, p)), Flat(t);
    assert s[..c + i] == s[..c] + s[c..c + |o|][..i];
    assert s[c + j..] == s[c..c + |o|][j..] + s[c + |o|..];
  }

  lemma WithFinish(s: seq<Item>, i: nat, j: nat, x: seq<Item>)
    requires i <= j <= |s|
    ensures (s + [Finish])[..i] + x + (s + [Finish])[j..] == (s[..i] + x + s[j..]) + [Finish]
  {
  }

  /** fdt_delprop and fdt_nop_property: the first property of that name is gone, and nothing else. */
  lemma DelPropRefines(strings: seq<Byte>, ts: seq<Token>, t: Node, p: Path, k: nat, name: Name, x: nat) returns (i: nat)
    requires TreeTokens(strings, ts, t) && NodeToken(ts, k, t, p) && PropertyAt(strings, ts, k, name, x)
    requires ts[x].Prop? && NameAt(strings, ts[x].nameoff, name)
    ensures FirstNamed(At(t, p).props, name, i)
    ensures
      var items, c := Flat(t) + [Finish], Count(ts[..x]);
      c < |items| && items[..c] + items[c + 1..]
        == Flat(Replace(t, p, At(t, p).(props := Without(At(t, p).props, i)))) + [Finish]
  {
    hide Flat, IsPath, At, Index, Means, NameAt, Count, PropertyAt, Replace;
    i := FoundProperty(strings, ts, t, p, k, name, x);
    InRange(strings, ts, k, name, x);
    var n, c := At(t, p), Count(ts[..x]);
    PropRemoved(n, i);
    assert Flat(n)[..1 + i] + [] + Flat(n)[2 + i..] == Without(Flat(n), 1 + i);
    Spread(t, p, n.(props := Without(n.props, i)), 1 + i, 2 + i, []);
    WithFinish(Flat(t), c, c + 1, []);
    var items := Flat(t) + [Finish];
    assert items[..c] + [] + items[c + 1..] == items[..c] + items[c + 1..];
  }

  /** The properties of a node after fdt_setprop or fdt_appendprop. */
  ghost function PropsWith(props: seq<Property>, found: bool, i: nat, p: Property): seq<Property> {
    if found then With(props, i, p) else [p] + props
  }

  /** fdt_setprop and fdt_appendprop: the first property of that name has the new value, or there was none and the
      node has a new first property. */
  lemma SetPropRefines(strings: seq<Byte>, ts: seq<Token>, t: Node, p: Path, k: nat, name: Name, x: nat, found: bool,
                       v: seq<Byte>) returns (i: nat)
    requires TreeTokens(strings, ts, t) && NodeToken(ts, k, t, p) && PropertyAt(strings, ts, k, name, x)
    requires if found then ts[x].Prop? && NameAt(strings, ts[x].nameoff, name) else !Inert(ts[x])
    ensures if found then FirstNamed(At(t, p).props, name, i) && At(t, p).props[i].value == ts[x].value
            else NoneNamed(At(t, p).props, name)
    ensures k < |ts| && x < |ts|
    ensures ItemsWith(Flat(t) + [Finish], ts, found, k, x, Property(name, v))
         == Flat(Replace(t, p, At(t, p).(props := PropsWith(At(t, p).props, found, i, Property(name, v))))) + [Finish]
  {
    hide Flat, IsPath, At, Index, Means, NameAt, Count, PropertyAt, Replace;
    var n, c, q := At(t, p), Index(t, p), Property(name, v);
    InRange(strings, ts, k, name, x);
    ItemsAt(t, p);
    var items := Flat(t) + [Finish];
    if found {
      i := FoundProperty(strings, ts, t, p, k, name, x);
      PropChanged(n, i, q);
      ChangeIsSplice(Flat(n), 1 + i, Has(q));
      Spread(t, p, n.(props := n.props[i := q]), 1 + i, 2 + i, [Has(q)]);
      WithFinish(Flat(t), c + 1 + i, c + 2 + i, [Has(q)]);
      ChangeIsSplice(items, c + 1 + i, Has(q));
    } else {
      i := 0;
      MissingProperty(strings, ts, t, p, k, name, x);
      PropAdded(n, q);
      Spread(t, p, n.(props := [q] + n.props), 1, 1, [Has(q)]);
      WithFinish(Flat(t), c + 1, c + 1, [Has(q)]);
    }
  }

  lemma ChangeIsSplice<T>(s: seq<T>, i: nat, x: T)
    requires i < |s|
    ensures s[i := x] == s[..i] + [x] + s[i + 1..]
  {
  }

  /** fdt_set_name. */
  lemma SetNameRefines(strings: seq<Byte>, ts: seq<Token>, t: Node, p: Path, k: nat, name: Name)
    requires TreeTokens(strings, ts, t) && NodeToken(ts, k, t, p)
    ensures With(Flat(t) + [Finish], Count(ts[..k]), Begin(name)) == Flat(Replace(t, p, At(t, p).(name := name))) + [Finish]
  {
    hide Flat, IsPath, At, Index, Means, Count, Replace;
    var n, c := At(t, p), Index(t, p);
    ItemsAt(t, p);
    NameChanged(n, name);
    ChangeIsSplice(Flat(n), 0, Begin(name));
    Spread(t, p, n.(name := name), 0, 1, [Begin(name)]);
    WithFinish(Flat(t), c, c + 1, [Begin(name)]);
    ChangeIsSplice(Flat(t) + [Finish], c, Begin(name));
  }

  /** Behind the properties. No string of a strings block has a zero in it, so no property has the name used here. */
  lemma EndOfProps(strings: seq<Byte>, ts: seq<Token>, t: Node, p: Path, k: nat, x: nat)
    requires TreeTokens(strings, ts, t) && NodeToken(ts, k, t, p) && k < x < |ts| && AllInert(ts, k + 1, x) && !Inert(ts[x])
    ensures Count(ts[..x]) == Index(t, p) + 1 + |At(t, p).props|
  {
    hide Flat, IsPath, At, Index, Means, Count;
    MissingProperty(strings, ts, t, p, k, [0], x);
  }

  /** fdt_add_subnode: the node has a new first subnode, without properties or subnodes. */
  lemma AddSubnodeRefines(strings: seq<Byte>, ts: seq<Token>, t: Node, p: Path, k: nat, x: nat, name: Name)
    requires TreeTokens(strings, ts, t) && NodeToken(ts, k, t, p) && k < x < |ts| && AllInert(ts, k + 1, x) && !Inert(ts[x])
    ensures
      var items, c := Flat(t) + [Finish], Count(ts[..x]);
      c <= |items| && items[..c] + [Begin(name), EndOf] + items[c..]
        == Flat(Replace(t, p, At(t, p).(children := [Node(name, [], [])] + At(t, p).children))) + [Finish]
  {
    hide Flat, IsPath, At, Index, Means, Count, Replace;
    var n, c := At(t, p), Index(t, p);
    ItemsAt(t, p);
    EndOfProps(strings, ts, t, p, k, x);
    var child := Node(name, [], []);
    EmptyNode(name);
    ChildAdded(n, child);
    Spread(t, p, n.(children := [child] + n.children), 1 + |n.props|, 1 + |n.props|, Flat(child));
    WithFinish(Flat(t), c + 1 + |n.props|, c + 1 + |n.props|, Flat(child));
  }

  lemma EmptyNode(name: Name)
    ensures Flat(Node(name, [], [])) == [Begin(name), EndOf]
  {
  }

  /** The end of a place is determined by its beginning. */
  lemma SameEnd(ts: seq<Token>, a: Place, b: Place)
    requires NodeAt(ts, a) && NodeAt(ts, b) && a.start == b.start
    ensures a.end == b.end
  {
    hide NodeAt, Level;
    KidsBounds(ts, a);
    KidsBounds(ts, b);
    if a.end < b.end {
      NodeLevels(ts, a, a.end);
      NodeLevels(ts, b, a.end);
    } else if b.end < a.end {
      NodeLevels(ts, a, b.end);
      NodeLevels(ts, b, b.end);
    }
  }

  /** The tokens of a node stand for its items. */
  lemma NodeCounts(strings: seq<Byte>, ts: seq<Token>, t: Node, p: Path, n: Place)
    requires TreeTokens(strings, ts, t) && NodeAt(ts, n) && NodeToken(ts, n.start, t, p)
    ensures n.end <= |ts| && Count(ts[..n.end]) == Index(t, p) + |Flat(At(t, p))|
  {
    hide Flat, IsPath, At, Index, Means, Count, NodeAt, PlaceOf;
    var items, k, c, m := Flat(t) + [Finish], n.start, Index(t, p), At(t, p);
    ItemsAt(t, p);
    KidsBounds(ts, n);
    assert ts == ts[..k] + ts[k..];
    MeansSplit(strings, ts[..k], ts[k..], items);
    var rest := items[c + |Flat(m)|..];
    RestOf(t, p);
    var q := FindNode(strings, ts, k, m, rest);
    assert q.start == k by {
      assert q.start > k ==> Inert(ts[k]);
    }
    SameEnd(ts, n, q);
    CountBefore(strings, ts, items, n.end, rest);
  }

  lemma RestOf(t: Node, p: Path)
    requires IsPath(t, p)
    ensures
      var items, c, o := Flat(t) + [Finish], Index(t, p), Flat(At(t, p));
      c + |o| <= |items| && items[c..] == o + items[c + |o|..]
  {
    hide Flat, IsPath, At, Index;
    var items, c, o := Flat(t) + [Finish], Index(t, p), Flat(At(t, p));
    ReplacedItems(t, p, At(t, p));
    assert items[c..c + |o|] == o;
    assert items[c..] == items[c..c + |o|] + items[c + |o|..];
  }

  lemma CountBefore(strings: seq<Byte>, ts: seq<Token>, items: seq<Item>, e: nat, rest: seq<Item>)
    requires Means(strings, ts, items) && e <= |ts| && Means(strings, ts[e..], rest)
    ensures Count(ts[..e]) == |items| - |rest|
  {
    hide Means, Count;
    assert ts == ts[..e] + ts[e..];
    MeansSplit(strings, ts[..e], ts[e..], items);
    MeansUnique(strings, ts[e..], items[Count(ts[..e])..], rest);
  }

  /** fdt_del_node and fdt_nop_node: the subnode is gone from its parent. */
  lemma DelNodeRefines(strings: seq<Byte>, ts: seq<Token>, t: Node, p: Path, i: nat, n: Place)
    requires TreeTokens(strings, ts, t) && NodeAt(ts, n) && IsPath(t, p) && i < |At(t, p).children|
    requires IsPath(t, p + [i]) && NodeToken(ts, n.start, t, p + [i])
    ensures n.end <= |ts| && n.start <= |ts|
    ensures
      var items, c, d := Flat(t) + [Finish], Count(ts[..n.start]), Count(ts[..n.end]);
      c <= d <= |items| && items[..c] + items[d..]
        == Flat(Replace(t, p, At(t, p).(children := Without(At(t, p).children, i)))) + [Finish]
  {
    hide Flat, IsPath, At, Index, Means, Count, Replace, NodeAt;
    var items, m := Flat(t) + [Finish], At(t, p);
    NodeCounts(strings, ts, t, p + [i], n);
    ChildPath(t, p, i);
    ItemsAt(t, p + [i]);
    ChildRemoved(m, i);
    var a := 1 + |m.props| + |FlatAll(m.children[..i])|;
    var b := a + |Flat(m.children[i])|;
    var m' := m.(children := Without(m.children, i));
    assert Flat(m)[..a] + [] + Flat(m)[b..] == Flat(m');
    Spread(t, p, m', a, b, []);
    var c, d := Count(ts[..n.start]), Count(ts[..n.end]);
    WithFinish(Flat(t), c, d, []);
    assert items[..c] + [] + items[d..] == items[..c] + items[d..];
  }

  /** A subnode is one step further down. */
  lemma {:induction false} ChildPath(t: Node, p: Path, i: nat)
    requires IsPath(t, p) && i < |At(t, p).children|
    ensures IsPath(t, p + [i]) && At(t, p + [i]) == At(t, p).children[i]
    ensures Index(t, p + [i]) == Index(t, p) + 1 + |At(t, p).props| + |FlatAll(At(t, p).children[..i])|
    decreases p
  {
    hide Flat, FlatAll;
    if p == [] {
      assert p + [i] == [i] && [i][1..] == [];
    } else {
      assert (p + [i])[1..] == p[1..] + [i];
      ChildPath(t.children[p[0]], p[1..], i);
    }
  }
}
