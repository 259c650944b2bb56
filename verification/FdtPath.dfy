/** Paths: the path of a node, the node at a path, and when one leads back to the other. */
module FdtPath {

  import opened FdtFormat
  import opened FdtTree
  import opened FdtReader

  const SLASH: Byte := 0x2F

  // ---- the way to a node ----

  /** The nodes from r down to a node, each a subnode of the one before. */
  ghost predicate IsChain(r: Place, chain: seq<Place>)
    decreases |chain|
  {
    && chain != [] && chain[0] == r
    && (|chain| > 1 ==> exists i :: 0 <= i < |r.kids| && chain[1] == r.kids[i] && IsChain(r.kids[i], chain[1..]))
  }

  ghost function Last(chain: seq<Place>): Place
    requires chain != []
  {
    chain[|chain| - 1]
  }

  lemma {:induction false} ChainInside(ts: seq<Token>, r: Place, chain: seq<Place>)
    requires NodeAt(ts, r) && IsChain(r, chain)
    ensures NodeAt(ts, Last(chain)) && r.start <= Last(chain).start < Last(chain).end <= r.end <= |ts|
    ensures |chain| > 1 ==> r.start < Last(chain).start && Last(chain).end < r.end
    decreases |chain|
  {
    hide NodeAt;
    KidsBounds(ts, r);
    if |chain| > 1 {
      var i :| 0 <= i < |r.kids| && chain[1] == r.kids[i] && IsChain(r.kids[i], chain[1..]);
      KidFacts(ts, r.start + 1, r.kids, r.end - 1, i);
      ChainInside(ts, r.kids[i], chain[1..]);
      assert Last(chain[1..]) == Last(chain);
    }
  }

  lemma {:induction false} ChainContains(r: Place, chain: seq<Place>)
    requires IsChain(r, chain)
    ensures Contains(r, Last(chain))
    decreases |chain|
  {
    if |chain| > 1 {
      var i :| 0 <= i < |r.kids| && chain[1] == r.kids[i] && IsChain(r.kids[i], chain[1..]);
      ChainContains(r.kids[i], chain[1..]);
      assert Last(chain[1..]) == Last(chain);
    }
  }

  /** The depth of a node is the number of nodes above it. */
  lemma {:induction false} ChainDepth(ts: seq<Token>, a: nat, r: Place, chain: seq<Place>)
    requires NodeAt(ts, r) && IsChain(r, chain) && a <= r.start + 1 <= |ts|
    ensures r.start <= Last(chain).start < |ts|
    ensures Level(ts, a, Last(chain).start + 1) == Level(ts, a, r.start + 1) + |chain| - 1
    decreases |chain|
  {
    hide NodeAt, Level;
    ChainInside(ts, r, chain);
    if |chain| > 1 {
      var i :| 0 <= i < |r.kids| && chain[1] == r.kids[i] && IsChain(r.kids[i], chain[1..]);
      KidsBounds(ts, r);
      KidFacts(ts, r.start + 1, r.kids, r.end - 1, i);
      KidsBounds(ts, r.kids[i]);
      LevelAdds(ts, a, r.start + 1, r.kids[i].start);
      LevelStep(ts, a, r.kids[i].start);
      ChainDepth(ts, a, r.kids[i], chain[1..]);
      assert Last(chain[1..]) == Last(chain);
    }
  }

  /** The first node after the beginning of n, inside n, is its first subnode. */
  lemma FirstInside(ts: seq<Token>, n: Place, x: nat)
    requires NodeAt(ts, n) && n.start < x < n.end <= |ts| && ts[x].BeginNode?
    requires forall y :: n.start < y < x ==> !ts[y].BeginNode?
    ensures n.kids != [] && x == n.kids[0].start
  {
    hide NodeAt;
    KidsBounds(ts, n);
    assert !Inert(ts[x]);
    if n.kids != [] {
      KidFacts(ts, n.start + 1, n.kids, n.end - 1, 0);
      KidsBounds(ts, n.kids[0]);
    }
  }

  /** The next node in the stream shares the way with this one, up to its parent. */
  lemma {:induction false} NextChain(ts: seq<Token>, r: Place, chain: seq<Place>, x: nat) returns (d: nat, n: Place)
    requires NodeAt(ts, r) && IsChain(r, chain) && Last(chain).start < x < r.end <= |ts| && ts[x].BeginNode?
    requires forall y :: Last(chain).start < y < x ==> !ts[y].BeginNode?
    ensures 0 < d <= |chain| && IsChain(r, chain[..d] + [n]) && n.start == x
    decreases |chain|
  {
    hide NodeAt;
    KidsBounds(ts, r);
    d := 1;
    if |chain| == 1 {
      FirstInside(ts, r, x);
      n := r.kids[0];
    } else {
      var i :| 0 <= i < |r.kids| && chain[1] == r.kids[i] && IsChain(r.kids[i], chain[1..]);
      var k := r.kids[i];
      KidFacts(ts, r.start + 1, r.kids, r.end - 1, i);
      ChainInside(ts, k, chain[1..]);
      assert Last(chain[1..]) == Last(chain);
      if x < k.end {
        d, n := NextChain(ts, k, chain[1..], x);
        d := d + 1;
        assert (chain[..d] + [n])[1..] == chain[1..][..d - 1] + [n];
        return;
      }
      AfterKid(ts, r, i, x);
      n := LaterKid(ts, r, i, x);
    }
    assert (chain[..1] + [n])[1..] == [n];
    assert IsChain(n, [n]);
  }

  lemma LaterKid(ts: seq<Token>, r: Place, i: nat, x: nat) returns (n: Place)
    requires i < |r.kids| && x < |ts| && ts[x].BeginNode? && r.end <= |ts| && r.end >= 2
    requires if i + 1 < |r.kids| then x == r.kids[i + 1].start else x == r.end - 1
    requires ts[r.end - 1].EndNode?
    ensures i + 1 < |r.kids| && n == r.kids[i + 1] && n.start == x
  {
    n := r.kids[i + 1];
  }

  // ---- the string ----

  function NamesOf(ts: seq<Token>, chain: seq<Place>): (ns: seq<Name>)
    ensures |ns| == |chain|
  {
    seq(|chain|, i requires 0 <= i < |chain| =>
      if chain[i].start < |ts| && ts[chain[i].start].BeginNode? then ts[chain[i].start].name else [])
  }

  /** What fdt_get_path keeps in its buffer: names with a slash behind each. */
  function Slashed(ns: seq<Name>): seq<Byte> {
    if ns == [] then [] else Slashed(ns[..|ns| - 1]) + ns[|ns| - 1] + [SLASH]
  }

  /** A slash in front of each. */
  function PathOf(ns: seq<Name>): seq<Byte> {
    if ns == [] then [] else [SLASH] + ns[0] + PathOf(ns[1..])
  }

  lemma SlashedNext(ns: seq<Name>, d: nat)
    requires d < |ns|
    ensures Slashed(ns[..d + 1]) == Slashed(ns[..d]) + ns[d] + [SLASH]
  {
    assert ns[..d + 1][..d] == ns[..d];
  }

  lemma {:induction false} SlashedGrows(ns: seq<Name>, d: nat, e: nat)
    requires d <= e <= |ns|
    ensures |Slashed(ns[..d])| + (e - d) <= |Slashed(ns[..e])|
  {
    if d < e {
      SlashedGrows(ns, d, e - 1);
      SlashedNext(ns, e - 1);
    }
  }

  /** With an empty root name, the two forms differ by the last slash. */
  lemma {:induction false} SlashedIsPath(ns: seq<Name>)
    requires ns != [] && ns[0] == []
    ensures Slashed(ns) == PathOf(ns[1..]) + [SLASH]
  {
    var d := |ns| - 1;
    if d == 0 {
      assert ns[..0] == [] && ns[1..] == [];
    } else {
      SlashedIsPath(ns[..d]);
      assert ns[1..] == ns[..d][1..] + [ns[d]];
      PathConcat(ns[..d][1..], ns[d]);
    }
  }

  lemma {:induction false} PathConcat(ns: seq<Name>, n: Name)
    ensures PathOf(ns + [n]) == PathOf(ns) + [SLASH] + n
  {
    if ns == [] {
      assert ns + [n] == [n] && [n][1..] == [];
    } else {
      assert (ns + [n])[1..] == ns[1..] + [n];
      PathConcat(ns[1..], n);
    }
  }

  // ---- fdt_get_path ----

  /** The buffer holds as many names of the chain as have found room. */
  ghost predicate Filled(ns: seq<Name>, buf: seq<Byte>, pdepth: nat, buflen: nat) {
    && pdepth <= |ns| && buf == Slashed(ns[..pdepth]) && |buf| <= buflen
    && (pdepth < |ns| ==> |Slashed(ns[..pdepth + 1])| > buflen)
  }

  /** The inner loop of fdt_get_path: the last name is taken off. */
  method PopName(buf: seq<Byte>, ghost ns: seq<Name>) returns (r: seq<Byte>)
    requires ns != [] && buf == Slashed(ns) && |ns| > 1 && SLASH !in ns[|ns| - 1]
    ensures r == Slashed(ns[..|ns| - 1])
  {
    ghost var d := |ns| - 1;
    ghost var front, last := Slashed(ns[..d]), ns[d];
    SlashedNext(ns, d);
    assert ns[..d + 1] == ns;
    SlashedNext(ns, d - 1);
    assert front[|front| - 1] == SLASH;
    forall k | |front| <= k < |buf| - 1 ensures buf[k] != SLASH {
      assert buf[k] == last[k - |front|];
    }
    var p := |buf| - 1;
    while buf[p - 1] != SLASH
      invariant |front| <= p < |buf| && |front| > 0
      decreases p
    {
      p := p - 1;
    }
    r := buf[..p];
  }

  /** Taking names off down to a depth, as far as there are more. */
  method PopTo(buf: seq<Byte>, pdepth: nat, depth: nat, ghost ns: seq<Name>) returns (r: seq<Byte>, d: nat)
    requires 0 < depth && pdepth <= |ns| && buf == Slashed(ns[..pdepth])
    requires forall i :: 0 < i < |ns| ==> SLASH !in ns[i]
    ensures d == (if pdepth > depth then depth else pdepth) && r == Slashed(ns[..d])
  {
    r, d := buf, pdepth;
    while d > depth
      invariant d <= pdepth && (d == pdepth || d >= depth) && r == Slashed(ns[..d])
    {
      assert ns[..d][..d - 1] == ns[..d - 1];
      r := PopName(r, ns[..d]);
      d := d - 1;
    }
  }

  /** Going on to the next node: the names that both share stay in the buffer, and its own is put behind them. */
  lemma PushedName(ns: seq<Name>, d: nat, name: Name, buf: seq<Byte>, pdepth: nat, buflen: nat)
    requires 0 < d <= |ns| && Filled(ns, buf, pdepth, buflen)
    ensures
      var ms, k := ns[..d] + [name], if pdepth > d then d else pdepth;
      var r := Slashed(ns[..k]);
      && (k < d ==> Filled(ms, r, k, buflen))
      && (k == d ==> if |r| + |name| + 1 <= buflen then Filled(ms, r + name + [SLASH], d + 1, buflen)
          else Filled(ms, r, d, buflen))
  {
    var ms, k := ns[..d] + [name], if pdepth > d then d else pdepth;
    assert ms[..k] == ns[..k];
    SlashedGrows(ns, k, pdepth);
    SlashedNext(ms, d);
    assert ms[..d] == ns[..d] && ms[..d + 1] == ms;
    if k < d {
      assert ms[..k + 1] == ns[..k + 1];
    }
  }

  /** The path of the node at the end of a way. */
  function PathString(ns: seq<Name>): seq<Byte> {
    if |ns| <= 1 then [SLASH] else PathOf(ns[1..])
  }

  ghost predicate NoSlashes(ts: seq<Token>) {
    forall k :: 0 <= k < |ts| && ts[k].BeginNode? ==> SLASH !in ts[k].name
  }

  lemma NamesAreSlashFree(ts: seq<Token>, chain: seq<Place>)
    requires NoSlashes(ts)
    ensures forall i :: 0 <= i < |chain| ==> SLASH !in NamesOf(ts, chain)[i]
  {
  }

  lemma NamesPrefix(ts: seq<Token>, chain: seq<Place>, d: nat, n: Place)
    requires d <= |chain| && n.start < |ts| && ts[n.start].BeginNode?
    ensures NamesOf(ts, chain[..d] + [n]) == NamesOf(ts, chain)[..d] + [ts[n.start].name]
  {
  }

  /** What has been written of the path, once a node has been handled. */
  method HandleNode(buf: seq<Byte>, pdepth: nat, depth: nat, name: Name, buflen: nat, ghost ns: seq<Name>)
    returns (r: seq<Byte>, d: nat)
    requires depth <= |ns| && Filled(ns, buf, pdepth, buflen) && (depth == 0 ==> ns == [])
    requires forall i :: 0 < i < |ns| ==> SLASH !in ns[i]
    ensures Filled(ns[..depth] + [name], r, d, buflen)
  {
    hide Slashed;
    r, d := buf, pdepth;
    if depth > 0 {
      r, d := PopTo(buf, pdepth, depth, ns);
      PushedName(ns, depth, name, buf, pdepth, buflen);
    } else {
      FirstName(name);
      assert ns[..pdepth] == [] && ns[..depth] + [name] == [name];
    }
    if d >= depth {
      if |r| + |name| + 1 <= buflen {
        r := r + name + [SLASH];
        d := d + 1;
      }
    }
  }

  lemma FirstName(name: Name)
    ensures Slashed([]) == [] && Slashed([name]) == name + [SLASH] && [name][..1] == [name] && [name][..0] == []
  {
    assert [name][..0] == [];
  }

  /** fdt_get_path. */
  method GetPath(b: seq<Byte>, nodeoffset: int, buflen: int, ghost ts: seq<Token>, ghost r: Place, ghost target: seq<Place>)
    returns (err: int, path: seq<Byte>)
    requires Stream(b, ts) && NodeAt(ts, r) && r.start == 0 && target != [] && IsChain(r, target)
    requires Last(target).start <= |ts| && nodeoffset == Pos(ts, Last(target).start)
        && NoSlashes(ts) && NamesOf(ts, target)[0] == []
    ensures err == if buflen >= 2 && |PathString(NamesOf(ts, target))| + 1 <= buflen then 0 else -NOSPACE
    ensures err == 0 ==> path == PathString(NamesOf(ts, target))
  {
    hide Stream, NodeAt, Pos, Scan, Level, Slashed, PathOf, IsChain, Filled, NamesOf;
    path := [];
    if buflen < 2 {
      return -NOSPACE, path;
    }
    ghost var goal, chain, ns := Last(target).start, [r], [];
    ChainInside(ts, r, target);
    KidsBounds(ts, r);
    NodeInside(ts, r);
    KidsBounds(ts, Last(target));
    StartOfPath(ts, r, buflen);
    PosZero(ts);
    var pdepth: nat := 0;
    var offset, depth := 0, 0;
    while true
      invariant chain != [] && IsChain(r, chain) && Last(chain).start <= goal
          && Last(chain).start < |ts| && ts[Last(chain).start].BeginNode?
      invariant offset == Pos(ts, Last(chain).start) && depth == Level(ts, 1, Last(chain).start + 1) && depth == |chain| - 1
      invariant |chain| - 1 <= |ns| && NamesOf(ts, chain) == ns[..|chain| - 1] + [ts[Last(chain).start].name]
      invariant Filled(ns, path, pdepth, buflen) && (|chain| == 1 ==> ns == [])
      invariant forall i :: 0 <= i < |ns| ==> SLASH !in ns[i]
      decreases goal - Last(chain).start
    {
      ghost var c := Last(chain).start;
      var name, namelen := GetName(b, offset, ts, c);
      path, pdepth := HandleNode(path, pdepth, depth, name, buflen, ns);
      ns := NamesOf(ts, chain);
      NamesAreSlashFree(ts, chain);
      SamePos(ts, c, goal);
      if offset == nodeoffset {
        SameChain(ts, r, chain, target);
        PathFits(ns, path, pdepth, buflen);
        if pdepth < depth + 1 {
          return -NOSPACE, path;
        }
        if |path| > 1 {
          path := path[..|path| - 1];
        }
        return 0, path;
      }
      InsideFrom(ts, 1, 1, r.end, c + 1);
      ScanStops(ts, 1, c + 1, r.end);
      ghost var x := Scan(ts, c + 1, depth).0;
      assert x <= goal;
      ghost var d, n := NextChain(ts, r, chain, x);
      offset, depth := NextNode(b, offset, depth, ts, c);
      NamesPrefix(ts, chain, d, n);
      chain := chain[..d] + [n];
      ChainDepth(ts, 1, r, chain);
      LevelSame(ts, 1);
    }
  }

  lemma StartOfPath(ts: seq<Token>, r: Place, buflen: nat)
    requires r.start < |ts| && ts[r.start].BeginNode?
    ensures IsChain(r, [r]) && Filled([], [], 0, buflen) && NamesOf(ts, [r]) == [ts[r.start].name]
  {
  }

  /** There is one way to a node. */
  lemma {:induction false} SameChain(ts: seq<Token>, r: Place, a: seq<Place>, b: seq<Place>)
    requires NodeAt(ts, r) && IsChain(r, a) && IsChain(r, b) && Last(a).start == Last(b).start
    ensures a == b
    decreases |a|
  {
    hide NodeAt;
    ChainInside(ts, r, a);
    ChainInside(ts, r, b);
    if |a| > 1 && |b| > 1 {
      KidsBounds(ts, r);
      var i :| 0 <= i < |r.kids| && a[1] == r.kids[i] && IsChain(r.kids[i], a[1..]);
      var j :| 0 <= j < |r.kids| && b[1] == r.kids[j] && IsChain(r.kids[j], b[1..]);
      KidFacts(ts, r.start + 1, r.kids, r.end - 1, i);
      KidFacts(ts, r.start + 1, r.kids, r.end - 1, j);
      ChainInside(ts, r.kids[i], a[1..]);
      ChainInside(ts, r.kids[j], b[1..]);
      assert Last(a[1..]) == Last(a) && Last(b[1..]) == Last(b);
      KidsApart(ts, r, i, j, Last(a).start);
      SameChain(ts, r.kids[i], a[1..], b[1..]);
      assert a == [a[0]] + a[1..] && b == [b[0]] + b[1..];
    }
  }

  /** A token lies in one subnode only. */
  lemma {:induction false} KidsInOrder(ts: seq<Token>, from: nat, kids: seq<Place>, to: nat, i: nat, j: nat)
    requires KidsAt(ts, from, kids, to) && i < j < |kids|
    ensures kids[i].end <= kids[j].start
    decreases j
  {
    hide NodeAt, AllInert;
    KidFacts(ts, from, kids, to, i);
    if i + 1 < j {
      KidsInOrder(ts, from, kids, to, i, j - 1);
      KidFacts(ts, from, kids, to, j - 1);
    }
  }

  lemma KidsApart(ts: seq<Token>, r: Place, i: nat, j: nat, x: nat)
    requires NodeAt(ts, r) && i < |r.kids| && j < |r.kids|
    requires r.kids[i].start <= x < r.kids[i].end && r.kids[j].start <= x < r.kids[j].end
    ensures i == j
  {
    hide NodeAt;
    KidsBounds(ts, r);
    if i < j {
      KidsInOrder(ts, r.start + 1, r.kids, r.end - 1, i, j);
    } else if j < i {
      KidsInOrder(ts, r.start + 1, r.kids, r.end - 1, j, i);
    }
  }

  lemma PathFits(ns: seq<Name>, buf: seq<Byte>, pdepth: nat, buflen: nat)
    requires ns != [] && ns[0] == [] && Filled(ns, buf, pdepth, buflen) && buflen >= 2
    ensures pdepth <= |ns| && (pdepth == |ns| <==> |PathString(ns)| + 1 <= buflen)
    ensures pdepth == |ns| ==> buf != [] && PathString(ns) == if |buf| > 1 then buf[..|buf| - 1] else buf
  {
    SlashedIsPath(ns);
    assert ns[..|ns|] == ns;
    if pdepth < |ns| {
      SlashedGrows(ns, pdepth + 1, |ns|);
    }
    if |ns| > 1 {
      PathNotEmpty(ns[1..]);
    } else {
      assert ns[1..] == [];
    }
  }

  lemma PathNotEmpty(ns: seq<Name>)
    requires ns != []
    ensures |PathOf(ns)| >= 1
  {
  }

  // ---- fdt_path_offset ----

  /** The first slash, or the end. */
  function NextSlash(p: seq<Byte>): (q: nat)
    ensures q <= |p| && (q < |p| ==> p[q] == SLASH) && forall i :: 0 <= i < q ==> p[i] != SLASH
  {
    if p == [] || p[0] == SLASH then 0 else 1 + NextSlash(p[1..])
  }

  /** The names in a path, between slashes. */
  function Components(p: seq<Byte>): seq<Name>
    decreases |p|
  {
    if p == [] then []
    else if p[0] == SLASH then Components(p[1..])
    else [p[..NextSlash(p)]] + Components(p[NextSlash(p)..])
  }

  /** Subnode i is the first that the name fits. */
  ghost predicate FirstFit(ts: seq<Token>, n: Place, s: Name, i: nat) {
    && i < |n.kids| && n.kids[i].start < |ts| && ts[n.kids[i].start].BeginNode?
    && Fits(ts[n.kids[i].start].name, s) && NoneFits(ts, n, s, i)
  }

  /** Going down from n by names, to the first subnode that fits each, one ends at m. */
  ghost predicate Leads(ts: seq<Token>, n: Place, names: seq<Name>, m: Place)
    decreases |names|
  {
    if names == [] then m == n
    else exists i: nat :: FirstFit(ts, n, names[0], i) && Leads(ts, n.kids[i], names[1..], m)
  }

  lemma FitIsUnique(ts: seq<Token>, n: Place, s: Name, i: nat, j: nat)
    requires FirstFit(ts, n, s, i) && FirstFit(ts, n, s, j)
    ensures i == j
  {
    hide Fits;
    assert !(i < j) by {
      NotBefore(ts, n, s, i, j);
    }
    assert !(j < i) by {
      NotBefore(ts, n, s, j, i);
    }
  }

  lemma NotBefore(ts: seq<Token>, n: Place, s: Name, i: nat, j: nat)
    requires FirstFit(ts, n, s, i) && NoneFits(ts, n, s, j)
    ensures j <= i
  {
  }

  /** fdt_path_offset, for a path from the root: p is the rest of the path. */
  method PathOffset(b: seq<Byte>, path: seq<Byte>, ghost ts: seq<Token>, ghost r: Place)
    returns (offset: int, ghost m: Place)
    requires Stream(b, ts) && NodeAt(ts, r) && r.start == 0 && 0 !in path && path != [] && path[0] == SLASH
    ensures offset >= 0 ==> m.start <= |ts| && offset == Pos(ts, m.start) && Leads(ts, r, Components(path), m) && NodeAt(ts, m)
    ensures offset < 0 ==> offset == -NOTFOUND && forall n :: !Leads(ts, r, Components(path), n)
  {
    hide Stream, NodeAt, Pos, Fits;
    var p := path;
    offset, m := 0, r;
    KidsBounds(ts, r);
    PosZero(ts);
    while p != []
      invariant 0 !in p && NodeAt(ts, m) && m.start <= |ts| && offset == Pos(ts, m.start)
      invariant forall n :: Leads(ts, m, Components(p), n) <==> Leads(ts, r, Components(path), n)
      decreases |p|
    {
      while p != [] && p[0] == SLASH
        invariant 0 !in p && |p| <= |path| && forall n :: Leads(ts, m, Components(p), n) <==> Leads(ts, r, Components(path), n)
        decreases |p|
      {
        p := p[1..];
      }
      if p == [] {
        return;
      }
      var q := NextSlash(p);
      ghost var names := Components(p);
      assert names[0] == p[..q] && names[1..] == Components(p[q..]);
      ghost var i;
      offset, i := SubnodeOffset(b, offset, p[..q], ts, m);
      if offset < 0 {
        NoWay(ts, m, names);
        return;
      }
      ghost var first: nat := i;
      assert FirstFit(ts, m, names[0], first);
      OneWay(ts, m, names, first);
      KidsBounds(ts, m);
      KidFacts(ts, m.start + 1, m.kids, m.end - 1, first);
      m := m.kids[first];
      p := p[q..];
    }
  }

  lemma OneWay(ts: seq<Token>, n: Place, names: seq<Name>, i: nat)
    requires names != [] && FirstFit(ts, n, names[0], i)
    ensures forall m :: Leads(ts, n.kids[i], names[1..], m) <==> Leads(ts, n, names, m)
  {
    hide Fits;
    forall m ensures Leads(ts, n.kids[i], names[1..], m) <==> Leads(ts, n, names, m) {
      if Leads(ts, n, names, m) {
        var j: nat :| FirstFit(ts, n, names[0], j) && Leads(ts, n.kids[j], names[1..], m);
        FitIsUnique(ts, n, names[0], i, j);
      }
    }
  }

  lemma NoWay(ts: seq<Token>, n: Place, names: seq<Name>)
    requires names != [] && NoneFits(ts, n, names[0], |n.kids|)
    ensures forall m :: !Leads(ts, n, names, m)
  {
  }

  // ---- there and back ----

  /** On the way to a node, no earlier subnode fits the name of the one that is taken. */
  ghost predicate Unshadowed(ts: seq<Token>, chain: seq<Place>)
    decreases |chain|
  {
    |chain| <= 1 ||
    (chain[1].start < |ts| && ts[chain[1].start].BeginNode?
     && (exists i: nat :: FirstFit(ts, chain[0], ts[chain[1].start].name, i) && chain[0].kids[i] == chain[1])
     && Unshadowed(ts, chain[1..]))
  }

  lemma {:induction false} ComponentsOfPath(ns: seq<Name>)
    requires forall i :: 0 <= i < |ns| ==> ns[i] != [] && SLASH !in ns[i]
    ensures Components(PathOf(ns)) == ns
  {
    if ns != [] {
      var p, rest := PathOf(ns), PathOf(ns[1..]);
      assert p[1..] == ns[0] + rest && p[0] == SLASH;
      ComponentsOfPath(ns[1..]);
      if ns[1..] != [] {
        assert rest[0] == SLASH;
      }
      FirstSlash(ns[0], rest);
      assert (ns[0] + rest)[..|ns[0]|] == ns[0] && (ns[0] + rest)[|ns[0]|..] == rest;
      assert (ns[0] + rest)[0] == ns[0][0];
    }
  }

  lemma {:induction false} FirstSlash(name: Name, rest: seq<Byte>)
    requires SLASH !in name && (rest != [] ==> rest[0] == SLASH)
    ensures NextSlash(name + rest) == |name|
  {
    if name == [] {
      assert name + rest == rest;
    } else {
      assert (name + rest)[1..] == name[1..] + rest;
      FirstSlash(name[1..], rest);
    }
  }

  /** The names on a way lead to where it ends, if and only if no other subnode shadows one of them. */
  lemma {:induction false} LeadsBackIff(ts: seq<Token>, r: Place, chain: seq<Place>)
    requires NodeAt(ts, r) && chain != [] && IsChain(r, chain)
    ensures Leads(ts, r, NamesOf(ts, chain)[1..], Last(chain)) <==> Unshadowed(ts, chain)
    decreases |chain|
  {
    hide NodeAt, Fits, Level, Leads, NamesOf, FirstFit;
    if |chain| == 1 {
      OneName(ts, r, chain);
    } else {
      var i :| 0 <= i < |r.kids| && chain[1] == r.kids[i] && IsChain(r.kids[i], chain[1..]);
      KidsBounds(ts, r);
      KidFacts(ts, r.start + 1, r.kids, r.end - 1, i);
      KidsBounds(ts, r.kids[i]);
      LeadsBackIff(ts, r.kids[i], chain[1..]);
      FirstStepIff(ts, r, chain, i);
    }
  }

  lemma OneName(ts: seq<Token>, r: Place, chain: seq<Place>)
    requires |chain| == 1 && chain[0] == r
    ensures Leads(ts, r, NamesOf(ts, chain)[1..], Last(chain))
  {
    assert NamesOf(ts, chain)[1..] == [];
  }

  lemma FirstStepIff(ts: seq<Token>, r: Place, chain: seq<Place>, i: nat)
    requires NodeAt(ts, r) && |chain| > 1 && i < |r.kids| && chain[1] == r.kids[i] && IsChain(r.kids[i], chain[1..])
    requires NodeAt(ts, r.kids[i]) && r.kids[i].start < |ts| && ts[r.kids[i].start].BeginNode?
    ensures Leads(ts, r, NamesOf(ts, chain)[1..], Last(chain)) <==>
      ((exists j: nat :: FirstFit(ts, r, ts[chain[1].start].name, j) && r.kids[j] == chain[1])
       && Leads(ts, r.kids[i], NamesOf(ts, chain[1..])[1..], Last(chain[1..])))
  {
    hide NodeAt, Fits;
    var names := NamesOf(ts, chain)[1..];
    assert names[1..] == NamesOf(ts, chain[1..])[1..] && names[0] == ts[chain[1].start].name;
    assert Last(chain[1..]) == Last(chain);
    if Leads(ts, r, names, Last(chain)) {
      var j: nat :| FirstFit(ts, r, names[0], j) && Leads(ts, r.kids[j], names[1..], Last(chain));
      SameKid(ts, r, i, j, chain[1..], names[1..]);
    }
  }

  /** Only one subnode can have the end of the way inside. */
  lemma SameKid(ts: seq<Token>, r: Place, i: nat, j: nat, rest: seq<Place>, names: seq<Name>)
    requires NodeAt(ts, r) && i < |r.kids| && j < |r.kids| && rest != [] && IsChain(r.kids[i], rest)
    requires Leads(ts, r.kids[j], names, Last(rest))
    ensures i == j
  {
    hide NodeAt, Fits, Leads, IsChain;
    KidsBounds(ts, r);
    KidFacts(ts, r.start + 1, r.kids, r.end - 1, i);
    KidFacts(ts, r.start + 1, r.kids, r.end - 1, j);
    LeadsInside(ts, r.kids[j], names, Last(rest));
    ChainInside(ts, r.kids[i], rest);
    KidsApart(ts, r, i, j, Last(rest).start);
  }

  lemma {:induction false} LeadsInside(ts: seq<Token>, n: Place, names: seq<Name>, m: Place)
    requires NodeAt(ts, n) && Leads(ts, n, names, m)
    ensures n.start <= m.start < m.end <= n.end <= |ts|
    decreases |names|
  {
    hide NodeAt, Fits;
    KidsBounds(ts, n);
    if names != [] {
      var i: nat :| FirstFit(ts, n, names[0], i) && Leads(ts, n.kids[i], names[1..], m);
      KidFacts(ts, n.start + 1, n.kids, n.end - 1, i);
      LeadsInside(ts, n.kids[i], names[1..], m);
    }
  }

  /** fdt_path_offset of the path that fdt_get_path gives for a node is the offset of that node, if and only if no
      node on the way is shadowed by an earlier sibling. */
  lemma PathLeadsBackIff(ts: seq<Token>, r: Place, chain: seq<Place>, m: Place)
    requires NodeAt(ts, r) && chain != [] && IsChain(r, chain) && Last(chain).start <= |ts| && m.start <= |ts|
    requires forall i :: 0 < i < |chain| ==> NamesOf(ts, chain)[i] != [] && SLASH !in NamesOf(ts, chain)[i]
    requires Leads(ts, r, Components(PathString(NamesOf(ts, chain))), m)
    ensures Pos(ts, m.start) == Pos(ts, Last(chain).start) <==> Unshadowed(ts, chain)
  {
    hide NodeAt, Pos, Fits, Unshadowed, IsChain, NamesOf;
    var ns := NamesOf(ts, chain);
    PathComponents(ns);
    LeadsBackIff(ts, r, chain);
    LeadsInside(ts, r, ns[1..], m);
    if Unshadowed(ts, chain) {
      LeadsToOne(ts, r, ns[1..], m, Last(chain));
    }
    if m.start <= Last(chain).start {
      SamePos(ts, m.start, Last(chain).start);
    } else {
      SamePos(ts, Last(chain).start, m.start);
    }
    if m.start == Last(chain).start {
      SameStart(ts, r, ns[1..], m, chain);
    }
  }

  lemma PathComponents(ns: seq<Name>)
    requires ns != [] && forall i :: 0 < i < |ns| ==> ns[i] != [] && SLASH !in ns[i]
    ensures Components(PathString(ns)) == ns[1..]
  {
    if |ns| == 1 {
      assert [SLASH][1..] == [] && ns[1..] == [];
      assert Components([SLASH]) == Components([SLASH][1..]);
    } else {
      ComponentsOfPath(ns[1..]);
    }
  }

  lemma {:induction false} LeadsToOne(ts: seq<Token>, n: Place, names: seq<Name>, a: Place, b: Place)
    requires Leads(ts, n, names, a) && Leads(ts, n, names, b)
    ensures a == b
    decreases |names|
  {
    hide Fits;
    if names != [] {
      var i: nat :| FirstFit(ts, n, names[0], i) && Leads(ts, n.kids[i], names[1..], a);
      var j: nat :| FirstFit(ts, n, names[0], j) && Leads(ts, n.kids[j], names[1..], b);
      FitIsUnique(ts, n, names[0], i, j);
      LeadsToOne(ts, n.kids[i], names[1..], a, b);
    }
  }

  /** Names lead along a chain. */
  lemma {:induction false} SameStart(ts: seq<Token>, r: Place, names: seq<Name>, m: Place, chain: seq<Place>)
    requires NodeAt(ts, r) && Leads(ts, r, names, m) && chain != [] && IsChain(r, chain) && Last(chain).start == m.start
    ensures m == Last(chain)
  {
    hide NodeAt, Fits;
    var way := WayOf(ts, r, names, m);
    SameChain(ts, r, way, chain);
  }

  lemma {:induction false} WayOf(ts: seq<Token>, r: Place, names: seq<Name>, m: Place) returns (way: seq<Place>)
    requires Leads(ts, r, names, m)
    ensures way != [] && IsChain(r, way) && Last(way) == m
    decreases |names|
  {
    hide Fits;
    if names == [] {
      way := [r];
    } else {
      var i: nat :| FirstFit(ts, r, names[0], i) && Leads(ts, r.kids[i], names[1..], m);
      var rest := WayOf(ts, r.kids[i], names[1..], m);
      way := [r] + rest;
      assert way[1..] == rest && rest[0] == r.kids[i];
    }
  }

  // the two calls

  lemma {:induction false} NoZeroInPath(ns: seq<Name>)
    requires forall i :: 0 <= i < |ns| ==> 0 !in ns[i]
    ensures 0 !in PathOf(ns)
  {
    if ns != [] {
      NoZeroInPath(ns[1..]);
    }
  }

  lemma NoZeroInNames(b: seq<Byte>, ts: seq<Token>, chain: seq<Place>)
    requires Stream(b, ts)
    ensures forall i :: 0 <= i < |chain| ==> 0 !in NamesOf(ts, chain)[i]
  {
    hide Stream, TotalLen, Pos;
    forall i | 0 <= i < |chain| ensures 0 !in NamesOf(ts, chain)[i] {
      if chain[i].start < |ts| && ts[chain[i].start].BeginNode? {
        StreamAt(b, ts, chain[i].start);
      }
    }
  }

  /** Names that lead nowhere do not lead back. */
  lemma NotFoundIsShadowed(ts: seq<Token>, r: Place, chain: seq<Place>)
    requires NodeAt(ts, r) && chain != [] && IsChain(r, chain)
    requires forall i :: 0 < i < |chain| ==> NamesOf(ts, chain)[i] != [] && SLASH !in NamesOf(ts, chain)[i]
    requires forall m :: !Leads(ts, r, Components(PathString(NamesOf(ts, chain))), m)
    ensures !Unshadowed(ts, chain)
  {
    hide NodeAt, Fits, Unshadowed, IsChain, NamesOf, Leads, PathString, Components;
    PathComponents(NamesOf(ts, chain));
    LeadsBackIff(ts, r, chain);
  }

  /** fdt_get_path, then fdt_path_offset: the node is found again if and only if no node on the way to it is shadowed
      by an earlier sibling. */
  method ThereAndBack(b: seq<Byte>, nodeoffset: int, buflen: int, ghost ts: seq<Token>, ghost r: Place, ghost target: seq<Place>)
    returns (err: int, path: seq<Byte>, offset: int)
    requires Stream(b, ts) && NodeAt(ts, r) && r.start == 0 && target != [] && IsChain(r, target)
    requires Last(target).start <= |ts| && nodeoffset == Pos(ts, Last(target).start)
    requires NoSlashes(ts) && NamesOf(ts, target)[0] == [] && forall i :: 0 < i < |target| ==> NamesOf(ts, target)[i] != []
    ensures err == if buflen >= 2 && |PathString(NamesOf(ts, target))| + 1 <= buflen then 0 else -NOSPACE
    ensures err == 0 ==> path == PathString(NamesOf(ts, target)) && (offset == nodeoffset <==> Unshadowed(ts, target))
  {
    hide Stream, NodeAt, Pos, IsChain, Fits, Unshadowed, NamesOf, Components, Leads;
    offset := -NOTFOUND;
    err, path := GetPath(b, nodeoffset, buflen, ts, r, target);
    if err != 0 {
      return;
    }
    ghost var ns := NamesOf(ts, target);
    NoZeroInNames(b, ts, target);
    NamesAreSlashFree(ts, target);
    NoZeroInPath(ns[1..]);
    ghost var m;
    offset, m := PathOffset(b, path, ts, r);
    if offset >= 0 {
      PathLeadsBackIff(ts, r, target, m);
    } else {
      NotFoundIsShadowed(ts, r, target);
    }
  }
}
