/** Reading a device tree: from node to node, over subnodes and properties, and back to the parent. */
module FdtReader {

  import opened FdtFormat
  import opened FdtTree
  import opened FdtBlob

  // ---- from node to node ----

  /** How much deeper than at token i the stream is at token j. */
  function Level(ts: seq<Token>, i: nat, j: nat): int
    requires i <= j <= |ts|
    decreases j - i
  {
    if i == j then 0
    else Level(ts, i, j - 1) + if ts[j - 1].BeginNode? then 1 else if ts[j - 1].EndNode? then -1 else 0
  }

  /** Where fdt_next_node stops, reading from token j at a depth: at the next node, or where the depth would be
      negative, or at the end; and the depth then. */
  function Scan(ts: seq<Token>, j: nat, depth: int): (r: (nat, int))
    requires j <= |ts|
    ensures j <= r.0 <= |ts|
    decreases |ts| - j
  {
    if j == |ts| then (j, depth)
    else match ts[j]
      case BeginNode(_) => (j, depth + 1)
      case EndNode => if depth - 1 < 0 then (j, depth - 1) else Scan(ts, j + 1, depth - 1)
      case End => (j, depth)
      case _ => Scan(ts, j + 1, depth)
  }

  /** The offset that fdt_next_node returns for where it stops. */
  function Landing(ts: seq<Token>, j: nat): int
    requires j <= |ts|
  {
    if j == |ts| then -TRUNCATED
    else if ts[j].End? then -NOTFOUND
    else if ts[j].EndNode? then Pos(ts, j + 1)
    else Pos(ts, j)
  }

  /** _fdt_check_node_offset: the offset behind the tag of a node, or an error. */
  method CheckNodeOffset(b: seq<Byte>, offset: int) returns (next: int)
    ensures offset >= 0 && offset % 4 == 0 && NextTagOf(b, offset).0 == BEGIN_NODE ==> next == NextTagOf(b, offset).1
    ensures !(offset >= 0 && offset % 4 == 0 && NextTagOf(b, offset).0 == BEGIN_NODE) ==> next == -BADOFFSET
  {
    if offset < 0 || offset % 4 != 0 {
      return -BADOFFSET;
    }
    var tag;
    tag, next := NextTag(b, offset);
    if tag != BEGIN_NODE {
      return -BADOFFSET;
    }
  }

  lemma TagKinds(t: Token)
    ensures Tag(t) == END <==> t.End?
    ensures Tag(t) == PROP <==> t.Prop?
    ensures Tag(t) == NOP <==> t.Nop?
    ensures Tag(t) == BEGIN_NODE <==> t.BeginNode?
    ensures Tag(t) == END_NODE <==> t.EndNode?
  {
  }

  /** What fdt_next_tag says at token j, or at the end of the block. */
  lemma ReadAt(b: seq<Byte>, ts: seq<Token>, j: nat)
    requires Stream(b, ts) && j <= |ts|
    ensures Pos(ts, j) <= |b| && Pos(ts, j) % 4 == 0
    ensures j == |ts| ==> NextTagOf(b, Pos(ts, j)) == (END, -TRUNCATED)
    ensures j < |ts| ==> NextTagOf(b, Pos(ts, j)) == (Tag(ts[j]), Pos(ts, j + 1))
  {
    hide Stream, Encodes, TotalLen, Len;
    StreamCut(b, ts, j);
    if j < |ts| {
      StreamAt(b, ts, j);
      NextTagOfToken(b, Pos(ts, j), ts[j]);
    } else {
      assert ts[..j] == ts;
      StreamLen(b, ts);
      TotalLenAligned(ts);
      NextTagBounds(b, |b|);
    }
  }

  /** fdt_next_node with a depth counter, from the node at token k. */
  method NextNode(b: seq<Byte>, offset: int, depth: int, ghost ts: seq<Token>, ghost k: nat)
    returns (next: int, newDepth: int)
    requires Stream(b, ts) && k < |ts| && ts[k].BeginNode? && offset == Pos(ts, k)
    ensures newDepth == Scan(ts, k + 1, depth).1 && next == Landing(ts, Scan(ts, k + 1, depth).0)
  {
    hide Stream, TotalLen, NextTagOf, Pos, Len;
    ReadAt(b, ts, k);
    TagKinds(ts[k]);
    ghost var j := k + 1;
    next := CheckNodeOffset(b, offset);
    if next < 0 {
      return next, depth;
    }
    newDepth := depth;
    var tag := NOP;
    while tag != BEGIN_NODE
      invariant tag != BEGIN_NODE ==> j <= |ts| && next == Pos(ts, j) && Scan(ts, j, newDepth) == Scan(ts, k + 1, depth)
      invariant tag == BEGIN_NODE ==>
        j < |ts| && ts[j].BeginNode? && next == Pos(ts, j) && Scan(ts, k + 1, depth) == (j, newDepth)
      decreases if tag == BEGIN_NODE then 0 else |ts| - j + 1
    {
      var here := next;
      ReadAt(b, ts, j);
      if j < |ts| {
        TagKinds(ts[j]);
      }
      tag, next := NextTag(b, here);
      if tag == BEGIN_NODE {
        newDepth := newDepth + 1;
        next := here;
      } else if tag == END_NODE {
        newDepth := newDepth - 1;
        if newDepth < 0 {
          return;
        }
        j := j + 1;
      } else if tag == END {
        if next >= 0 {
          next := -NOTFOUND;
        }
        return;
      } else {
        j := j + 1;
      }
    }
  }

  // ---- nodes in the stream ----

  /** Where a node and its subnodes stand in the stream: tokens start up to end. */
  datatype Place = Place(start: nat, end: nat, kids: seq<Place>)

  predicate Inert(t: Token) {
    t.Prop? || t.Nop?
  }

  ghost predicate AllInert(ts: seq<Token>, i: nat, j: nat)
    requires i <= j <= |ts|
  {
    forall x :: i <= x < j ==> Inert(ts[x])
  }

  ghost predicate NodeAt(ts: seq<Token>, n: Place)
    decreases n
  {
    && n.start + 2 <= n.end <= |ts| && ts[n.start].BeginNode? && ts[n.end - 1].EndNode?
    && KidsAt(ts, n.start + 1, n.kids, n.end - 1)
  }

  /** Subnodes one after the other, with nothing but properties and nops around them. */
  ghost predicate KidsAt(ts: seq<Token>, from: nat, kids: seq<Place>, to: nat)
    decreases kids
  {
    && from <= to <= |ts|
    && if kids == [] then AllInert(ts, from, to)
       else
         && from <= kids[0].start <= kids[0].end <= to && AllInert(ts, from, kids[0].start)
         && NodeAt(ts, kids[0]) && KidsAt(ts, kids[0].end, kids[1..], to)
  }

  lemma {:induction false} LevelAdds(ts: seq<Token>, i: nat, m: nat, j: nat)
    requires i <= m <= j <= |ts|
    ensures Level(ts, i, j) == Level(ts, i, m) + Level(ts, m, j)
    decreases j - m
  {
    if m < j {
      LevelAdds(ts, i, m, j - 1);
    }
  }

  lemma {:induction false} InertLevel(ts: seq<Token>, i: nat, j: nat)
    requires i <= j <= |ts| && AllInert(ts, i, j)
    ensures Level(ts, i, j) == 0
    decreases j - i
  {
    if i < j {
      InertLevel(ts, i, j - 1);
    }
  }

  /** Inside a node the level stays positive; behind it, it is zero again. No end tag is inside. */
  lemma {:induction false} NodeLevels(ts: seq<Token>, n: Place, x: nat)
    requires NodeAt(ts, n) && n.start < x <= n.end
    ensures Level(ts, n.start, x) >= (if x == n.end then 0 else 1) && (x == n.end ==> Level(ts, n.start, x) == 0)
    ensures x < n.end ==> !ts[x].End?
    decreases n
  {
    LevelAdds(ts, n.start, n.start + 1, x);
    assert Level(ts, n.start, n.start) == 0;
    assert Level(ts, n.start, n.start + 1) == 1;
    if x < n.end {
      KidsLevels(ts, n.start + 1, n.kids, n.end - 1, x);
    } else {
      KidsLevels(ts, n.start + 1, n.kids, n.end - 1, n.end - 1);
      LevelAdds(ts, n.start, n.start + 1, n.end - 1);
      assert Level(ts, n.start, n.end) == Level(ts, n.start, n.end - 1) - 1;
    }
  }

  lemma {:induction false} KidsLevels(ts: seq<Token>, from: nat, kids: seq<Place>, to: nat, x: nat)
    requires KidsAt(ts, from, kids, to) && from <= x <= to && to < |ts| && ts[to].EndNode?
    ensures Level(ts, from, x) >= 0 && (x == to ==> Level(ts, from, x) == 0) && !ts[x].End?
    decreases kids
  {
    if kids == [] {
      InertLevel(ts, from, x);
    } else if x <= kids[0].start {
      InertLevel(ts, from, x);
    } else {
      InertLevel(ts, from, kids[0].start);
      LevelAdds(ts, from, kids[0].start, x);
      if x < kids[0].end {
        NodeLevels(ts, kids[0], x);
      } else {
        NodeLevels(ts, kids[0], kids[0].end);
        LevelAdds(ts, kids[0].start, kids[0].end, x);
        KidsLevels(ts, kids[0].end, kids[1..], to, x);
      }
    }
  }

  ghost predicate Above(ts: seq<Token>, a: nat, x: nat)
    requires a <= x < |ts|
  {
    Level(ts, a, x) >= 0 && !ts[x].End?
  }

  /** From token j up to e the level does not fall below that of a, and at e it does. */
  ghost predicate Inside(ts: seq<Token>, a: nat, j: nat, e: nat) {
    a <= j < e <= |ts| && (forall x :: j <= x < e ==> Above(ts, a, x)) && Level(ts, a, e) == -1
  }

  lemma LevelStep(ts: seq<Token>, a: nat, j: nat)
    requires a <= j < |ts|
    ensures Level(ts, a, j + 1) == Level(ts, a, j) + if ts[j].BeginNode? then 1 else if ts[j].EndNode? then -1 else 0
  {
  }

  /** The scan stops at the next node, or at the token where the level falls below that of a. */
  lemma {:induction false} ScanStops(ts: seq<Token>, a: nat, j: nat, e: nat)
    requires Inside(ts, a, j, e)
    ensures
      var (x, d) := Scan(ts, j, Level(ts, a, j));
      && j <= x < e && d == Level(ts, a, x + 1) && (forall y :: j <= y < x ==> !ts[y].BeginNode?)
      && (ts[x].BeginNode? || (x == e - 1 && ts[x].EndNode?))
    decreases e - j
  {
    hide Level;
    assert Above(ts, a, j);
    LevelStep(ts, a, j);
    if j + 1 < e {
      assert Above(ts, a, j + 1);
      if !ts[j].BeginNode? {
        ScanStops(ts, a, j + 1, e);
      }
    }
  }

  lemma NodeInside(ts: seq<Token>, n: Place)
    requires NodeAt(ts, n)
    ensures Inside(ts, n.start + 1, n.start + 1, n.end) && Level(ts, n.start + 1, n.start + 1) == 0
  {
    hide Level;
    var a, to := n.start + 1, n.end - 1;
    forall x | a <= x < n.end ensures Above(ts, a, x) {
      KidsLevels(ts, a, n.kids, to, x);
    }
    KidsLevels(ts, a, n.kids, to, to);
    LevelStep(ts, a, to);
    LevelSame(ts, a);
  }

  lemma LevelSame(ts: seq<Token>, a: nat)
    requires a <= |ts|
    ensures Level(ts, a, a) == 0
  {
  }

  lemma InsideFrom(ts: seq<Token>, a: nat, j: nat, e: nat, k: nat)
    requires Inside(ts, a, j, e) && j <= k < e
    ensures Inside(ts, a, k, e)
  {
    hide Level, Above;
  }

  // ---- subnodes ----

  /** Subnode i begins at the level of the others, and nothing but properties and nops lies between it and the
      next, or the end. */
  lemma {:induction false} KidFacts(ts: seq<Token>, from: nat, kids: seq<Place>, to: nat, i: nat)
    requires KidsAt(ts, from, kids, to) && i < |kids|
    ensures from <= kids[i].start < kids[i].end <= |ts| && NodeAt(ts, kids[i]) && Level(ts, from, kids[i].start) == 0
    ensures
      var next := if i + 1 < |kids| then kids[i + 1].start else to;
      kids[i].end <= next <= to && to <= |ts| && AllInert(ts, kids[i].end, next)
    decreases kids
  {
    hide Level, NodeAt, AllInert;
    KidsBounds(ts, kids[0]);
    InertLevel(ts, from, kids[0].start);
    if i > 0 {
      KidFacts(ts, kids[0].end, kids[1..], to, i - 1);
      NodeLevels(ts, kids[0], kids[0].end);
      var s := kids[i].start;
      assert kids[1..][i - 1] == kids[i];
      LevelAdds(ts, from, kids[0].start, s);
      LevelAdds(ts, kids[0].start, kids[0].end, s);
    } else if |kids| > 1 {
      assert kids[1..][0] == kids[1];
    }
  }

  lemma KidsBounds(ts: seq<Token>, n: Place)
    requires NodeAt(ts, n)
    ensures n.start + 2 <= n.end <= |ts| && ts[n.start].BeginNode? && ts[n.end - 1].EndNode?
    ensures KidsAt(ts, n.start + 1, n.kids, n.end - 1)
  {
  }

  lemma FirstKid(ts: seq<Token>, n: Place)
    requires NodeAt(ts, n)
    ensures Scan(ts, n.start + 1, 0) == if n.kids == [] then (n.end - 1, -1) else (n.kids[0].start, 1)
  {
    hide Level, Scan, Above;
    var a := n.start + 1;
    NodeInside(ts, n);
    ScanStops(ts, a, a, n.end);
    var (x, d) := Scan(ts, a, 0);
    if n.kids == [] {
      assert x == n.end - 1;
    } else {
      KidFacts(ts, a, n.kids, n.end - 1, 0);
      var s := n.kids[0].start;
      assert AllInert(ts, a, s) && ts[s].BeginNode?;
      assert x == s;
      LevelStep(ts, a, s);
    }
  }

  /** fdt_first_subnode. */
  method FirstSubnode(b: seq<Byte>, offset: int, ghost ts: seq<Token>, ghost n: Place) returns (sub: int)
    requires Stream(b, ts) && NodeAt(ts, n) && offset == Pos(ts, n.start)
    ensures n.kids == [] ==> sub == -NOTFOUND
    ensures n.kids != [] ==> n.kids[0].start <= |ts| && sub == Pos(ts, n.kids[0].start)
  {
    hide Stream, NodeAt, Pos, Scan;
    KidsBounds(ts, n);
    FirstKid(ts, n);
    var depth;
    sub, depth := NextNode(b, offset, 0, ts, n.start);
    if n.kids != [] {
      KidFacts(ts, n.start + 1, n.kids, n.end - 1, 0);
      KidsBounds(ts, n.kids[0]);
    }
    if sub < 0 || depth != 1 {
      return -NOTFOUND;
    }
  }

  /** From inside subnode i, the next node found is deeper down, or the next subnode, or the end of the parent. */
  lemma FromKid(ts: seq<Token>, n: Place, i: nat, c: nat)
    requires NodeAt(ts, n) && i < |n.kids| && n.kids[i].start <= c < n.kids[i].end
    ensures n.end <= |ts|
    ensures
      var a := n.start + 1;
      && a <= c < |ts|
      && var (x, d) := Scan(ts, c + 1, Level(ts, a, c + 1));
      && c < x < n.end && d == Level(ts, a, x + 1)
      && (x < n.kids[i].end ==> ts[x].BeginNode? && d > 1)
      && (x >= n.kids[i].end ==>
           if i + 1 < |n.kids| then x == n.kids[i + 1].start && d == 1 && ts[x].BeginNode? else x == n.end - 1 && d == -1)
  {
    hide Level, Scan, Above, NodeAt;
    var a, kid := n.start + 1, n.kids[i];
    KidsBounds(ts, n);
    NodeInside(ts, n);
    KidFacts(ts, a, n.kids, n.end - 1, i);
    InsideFrom(ts, a, a, n.end, c + 1);
    ScanStops(ts, a, c + 1, n.end);
    var (x, d) := Scan(ts, c + 1, Level(ts, a, c + 1));
    if x < kid.end {
      KidsBounds(ts, kid);
      NodeLevels(ts, kid, x);
      LevelAdds(ts, a, kid.start, x);
      LevelStep(ts, a, x);
    } else {
      AfterKid(ts, n, i, x);
    }
  }

  lemma AfterKid(ts: seq<Token>, n: Place, i: nat, x: nat)
    requires NodeAt(ts, n) && i < |n.kids| && n.kids[i].end <= x < n.end <= |ts|
    requires ts[x].BeginNode? || (x == n.end - 1 && ts[x].EndNode?)
    requires forall y :: n.kids[i].end <= y < x ==> !ts[y].BeginNode?
    ensures n.start + 1 <= x
    ensures
      if i + 1 < |n.kids| then x == n.kids[i + 1].start && ts[x].BeginNode? && Level(ts, n.start + 1, x + 1) == 1
      else x == n.end - 1 && Level(ts, n.start + 1, x + 1) == -1
  {
    hide Level, NodeAt;
    var a := n.start + 1;
    KidsBounds(ts, n);
    KidFacts(ts, a, n.kids, n.end - 1, i);
    if i + 1 < |n.kids| {
      KidFacts(ts, a, n.kids, n.end - 1, i + 1);
      var s := n.kids[i + 1].start;
      KidsBounds(ts, n.kids[i + 1]);
      assert !(x < s) by {
        assert x < s ==> Inert(ts[x]);
      }
      assert x == s;
      LevelStep(ts, a, s);
    } else {
      assert !(x < n.end - 1) by {
        assert x < n.end - 1 ==> Inert(ts[x]);
      }
      KidsLevels(ts, a, n.kids, n.end - 1, n.end - 1);
      LevelStep(ts, a, n.end - 1);
    }
  }

  /** fdt_next_subnode, from subnode i of a node. */
  method NextSubnode(b: seq<Byte>, offset: int, ghost ts: seq<Token>, ghost n: Place, ghost i: nat) returns (sub: int)
    requires Stream(b, ts) && NodeAt(ts, n) && i < |n.kids| && n.kids[i].start <= |ts| && offset == Pos(ts, n.kids[i].start)
    ensures i + 1 == |n.kids| ==> sub == -NOTFOUND
    ensures i + 1 < |n.kids| ==> n.kids[i + 1].start <= |ts| && sub == Pos(ts, n.kids[i + 1].start)
  {
    hide Stream, NodeAt, Pos, Scan, Level;
    ghost var a, c := n.start + 1, n.kids[i].start;
    KidsBounds(ts, n);
    KidFacts(ts, a, n.kids, n.end - 1, i);
    KidsBounds(ts, n.kids[i]);
    LevelStep(ts, a, c);
    var depth := 1;
    sub := offset;
    while true
      invariant n.kids[i].start <= c < n.kids[i].end <= |ts| && ts[c].BeginNode?
      invariant a <= c && sub == Pos(ts, c) && depth == Level(ts, a, c + 1)
      decreases |ts| - c
    {
      FromKid(ts, n, i, c);
      ghost var x := Scan(ts, c + 1, depth).0;
      sub, depth := NextNode(b, sub, depth, ts, c);
      if sub < 0 || depth < 1 {
        return -NOTFOUND;
      }
      if depth <= 1 {
        return;
      }
      c := x;
    }
  }

  /** _fdt_node_end_offset: the end of the node, behind its end tag. */
  method NodeEndOffset(b: seq<Byte>, start: int, ghost ts: seq<Token>, ghost n: Place) returns (offset: int)
    requires Stream(b, ts) && NodeAt(ts, n) && n.start <= |ts| && start == Pos(ts, n.start)
    ensures n.end <= |ts| && offset == Pos(ts, n.end)
  {
    hide Stream, NodeAt, Pos, Scan, Level;
    ghost var a, c := n.start + 1, n.start;
    KidsBounds(ts, n);
    NodeInside(ts, n);
    var depth := 0;
    offset := start;
    while offset >= 0 && depth >= 0
      invariant n.end <= |ts| && n.start <= c < n.end
      invariant depth >= 0 ==> ts[c].BeginNode? && offset == Pos(ts, c) && depth == Level(ts, a, c + 1)
      invariant depth < 0 ==> c == n.end - 1 && offset == Pos(ts, n.end)
      decreases if depth < 0 then 0 else n.end - c
    {
      NodeEndBehind(ts, n, c);
      InsideFrom(ts, a, a, n.end, c + 1);
      ScanStops(ts, a, c + 1, n.end);
      ghost var x := Scan(ts, c + 1, depth).0;
      offset, depth := NextNode(b, offset, depth, ts, c);
      LevelAtEnd(ts, n, x);
      c := x;
    }
  }

  lemma NodeEndBehind(ts: seq<Token>, n: Place, c: nat)
    requires NodeAt(ts, n) && n.start <= c < n.end <= |ts| && ts[c].BeginNode?
    ensures c + 1 < n.end
  {
  }

  lemma LevelAtEnd(ts: seq<Token>, n: Place, x: nat)
    requires NodeAt(ts, n) && n.start + 1 <= x < n.end <= |ts|
    ensures ts[x].BeginNode? ==> Level(ts, n.start + 1, x + 1) >= 1
    ensures x == n.end - 1 ==> Level(ts, n.start + 1, x + 1) == -1
  {
    hide Level, NodeAt;
    KidsBounds(ts, n);
    KidsLevels(ts, n.start + 1, n.kids, n.end - 1, x);
    LevelStep(ts, n.start + 1, x);
  }

  // ---- back to the parent ----

  /** The nodes at and below a node. */
  ghost predicate Contains(r: Place, n: Place)
    decreases r
  {
    r == n || exists i :: 0 <= i < |r.kids| && Contains(r.kids[i], n)
  }

  /** How deep token c is in the node r; the node itself has depth 0. */
  function Depth(ts: seq<Token>, r: Place, c: nat): int
    requires r.start <= c < |ts|
  {
    Level(ts, r.start + 1, c + 1)
  }

  lemma {:induction false} ContainedNode(ts: seq<Token>, r: Place, n: Place)
    requires NodeAt(ts, r) && Contains(r, n)
    ensures NodeAt(ts, n) && r.start <= n.start < n.end <= r.end <= |ts|
    decreases r
  {
    hide NodeAt;
    KidsBounds(ts, r);
    if r != n {
      var i :| 0 <= i < |r.kids| && Contains(r.kids[i], n);
      KidFacts(ts, r.start + 1, r.kids, r.end - 1, i);
      ContainedNode(ts, r.kids[i], n);
    } else {
      KidsBounds(ts, n);
    }
  }

  /** What is inside a node is deeper than the node. */
  lemma DeeperInside(ts: seq<Token>, r: Place, n: Place, c: nat)
    requires NodeAt(ts, r) && Contains(r, n) && n.start < c < n.end <= |ts| && ts[c].BeginNode? && r.start <= n.start
    ensures Depth(ts, r, c) > Depth(ts, r, n.start)
  {
    hide Level, NodeAt, Contains;
    ContainedNode(ts, r, n);
    KidsBounds(ts, n);
    NodeLevels(ts, n, c);
    LevelStep(ts, n.start, c);
    var a := r.start + 1;
    if n.start >= a {
      LevelAdds(ts, a, n.start, c + 1);
      LevelStep(ts, a, n.start);
    } else {
      LevelStep(ts, n.start, n.start);
      LevelSame(ts, n.start);
      LevelSame(ts, a);
      LevelAdds(ts, n.start, n.start + 1, c + 1);
    }
  }

  /** The last node at a depth, up to token c. */
  ghost predicate LastAt(ts: seq<Token>, r: Place, c: nat, depth: int, last: nat)
    requires r.start <= c < |ts|
  {
    && r.start <= last <= c && ts[last].BeginNode? && Depth(ts, r, last) == depth
    && forall y :: last < y <= c && ts[y].BeginNode? ==> Depth(ts, r, y) != depth
  }

  /** fdt_supernode_atdepth_offset, for a node. */
  method Supernode(b: seq<Byte>, nodeoffset: int, supernodedepth: int, ghost ts: seq<Token>, ghost r: Place, ghost n: Place)
    returns (offset: int, nodedepth: int)
    requires Stream(b, ts) && NodeAt(ts, r) && r.start == 0 && Contains(r, n) && n.start <= |ts| && nodeoffset == Pos(ts, n.start)
    ensures n.start < |ts|
    ensures supernodedepth < 0 ==> offset == -NOTFOUND
    ensures supernodedepth >= 0 ==> nodedepth == Depth(ts, r, n.start)
    ensures supernodedepth > Depth(ts, r, n.start) ==> offset == -NOTFOUND
    ensures 0 <= supernodedepth <= Depth(ts, r, n.start) ==>
      forall last :: LastAt(ts, r, n.start, supernodedepth, last) ==> offset == Pos(ts, last)
  {
    hide Stream, NodeAt, Pos, Scan, Level, Contains;
    ContainedNode(ts, r, n);
    KidsBounds(ts, n);
    KidsBounds(ts, r);
    NodeInside(ts, r);
    PosZero(ts);
    if supernodedepth < 0 {
      return -NOTFOUND, 0;
    }
    ghost var c := 0;
    var supernodeoffset := -INTERNAL;
    var depth := 0;
    offset := 0;
    while true
      invariant 0 <= c <= n.start && ts[c].BeginNode? && offset == Pos(ts, c) && depth == Depth(ts, r, c)
      invariant forall last :: 0 <= last < c && ts[last].BeginNode? && Depth(ts, r, last) == supernodedepth
                         && (forall y :: last < y < c && ts[y].BeginNode? ==> Depth(ts, r, y) != supernodedepth)
                         ==> supernodeoffset == Pos(ts, last)
      decreases n.start - c
    {
      if depth == supernodedepth {
        supernodeoffset := offset;
      }
      SamePos(ts, c, n.start);
      if offset == nodeoffset {
        nodedepth := depth;
        if supernodedepth > depth {
          return -NOTFOUND, nodedepth;
        }
        return supernodeoffset, nodedepth;
      }
      InsideFrom(ts, 1, 1, r.end, c + 1);
      ScanStops(ts, 1, c + 1, r.end);
      ghost var x := Scan(ts, c + 1, depth).0;
      assert x <= n.start;
      offset, depth := NextNode(b, offset, depth, ts, c);
      c := x;
    }
  }

  lemma PosZero(ts: seq<Token>)
    ensures Pos(ts, 0) == 0
  {
  }

  lemma SamePos(ts: seq<Token>, c: nat, d: nat)
    requires c <= d <= |ts|
    ensures Pos(ts, c) == Pos(ts, d) <==> c == d
  {
    hide Pos;
    if c < d {
      PosOrder(ts, c, d);
    }
  }

  /** fdt_parent_offset of a subnode is the offset of its parent. */
  method ParentOffset(b: seq<Byte>, nodeoffset: int, ghost ts: seq<Token>, ghost r: Place, ghost n: Place, ghost i: nat)
    returns (offset: int)
    requires Stream(b, ts) && NodeAt(ts, r) && r.start == 0 && Contains(r, n) && i < |n.kids|
    requires n.kids[i].start <= |ts| && nodeoffset == Pos(ts, n.kids[i].start)
    ensures n.start <= |ts| && offset == Pos(ts, n.start)
  {
    hide Stream, NodeAt, Pos, Contains, Depth;
    KidContained(r, n, i);
    ContainedNode(ts, r, n);
    KidDepth(ts, r, n, i);
    var nodedepth;
    offset, nodedepth := Supernode(b, nodeoffset, 0, ts, r, n.kids[i]);
    if nodedepth < 0 {
      return nodedepth;
    }
    offset, nodedepth := Supernode(b, nodeoffset, nodedepth - 1, ts, r, n.kids[i]);
  }

  lemma {:induction false} KidContained(r: Place, n: Place, i: nat)
    requires Contains(r, n) && i < |n.kids|
    ensures Contains(r, n.kids[i])
    decreases r
  {
    if r == n {
      assert Contains(r.kids[i], n.kids[i]);
    } else {
      var j :| 0 <= j < |r.kids| && Contains(r.kids[j], n);
      KidContained(r.kids[j], n, i);
    }
  }

  /** A node is the last one before its subnode that is one level up. */
  lemma KidDepth(ts: seq<Token>, r: Place, n: Place, i: nat)
    requires NodeAt(ts, r) && Contains(r, n) && i < |n.kids| && r.start == 0
    ensures n.start < n.kids[i].start < |ts| && Depth(ts, r, n.start) >= 0
    ensures Depth(ts, r, n.kids[i].start) == Depth(ts, r, n.start) + 1
    ensures LastAt(ts, r, n.kids[i].start, Depth(ts, r, n.start), n.start)
  {
    hide Level, NodeAt, Contains;
    ContainedNode(ts, r, n);
    KidsBounds(ts, n);
    KidFacts(ts, n.start + 1, n.kids, n.end - 1, i);
    KidsBounds(ts, n.kids[i]);
    var s := n.kids[i].start;
    LevelAdds(ts, 1, n.start + 1, s);
    LevelStep(ts, 1, s);
    RootDepth(ts, r, n);
    forall y | n.start < y <= s && ts[y].BeginNode? ensures Depth(ts, r, y) != Depth(ts, r, n.start) {
      DeeperInside(ts, r, n, y);
    }
  }

  lemma RootDepth(ts: seq<Token>, r: Place, n: Place)
    requires NodeAt(ts, r) && r.start <= n.start < n.end <= r.end <= |ts| && ts[n.start].BeginNode?
    ensures Depth(ts, r, n.start) >= 0
  {
    hide NodeAt, Level;
    KidsBounds(ts, r);
    if n.start > r.start {
      KidsLevels(ts, r.start + 1, r.kids, r.end - 1, n.start);
      LevelStep(ts, r.start + 1, n.start);
    } else {
      LevelSame(ts, r.start + 1);
    }
  }

  // ---- the places of a tree ----

  /** The place is that of this node, and its subnodes are those of the node, in order. */
  ghost predicate PlaceOf(ts: seq<Token>, p: Place, n: Node)
    decreases n
  {
    && p.start < |ts| && ts[p.start] == BeginNode(n.name)
    && |p.kids| == |n.children| && forall i :: 0 <= i < |p.kids| ==> PlaceOf(ts, p.kids[i], n.children[i])
  }

  ghost predicate PlacesOf(ts: seq<Token>, ps: seq<Place>, ns: seq<Node>) {
    |ps| == |ns| && forall i :: 0 <= i < |ps| ==> PlaceOf(ts, ps[i], ns[i])
  }

  /** The first token that is not a nop. */
  lemma {:induction false} SkipNops(strings: seq<Byte>, ts: seq<Token>, j: nat, items: seq<Item>) returns (k: nat)
    requires j <= |ts| && Means(strings, ts[j..], items) && items != []
    ensures j <= k < |ts| && (forall x :: j <= x < k ==> ts[x].Nop?) && !ts[k].Nop?
    ensures Matches(strings, ts[k], items[0]) && Means(strings, ts[k + 1..], items[1..])
    decreases |ts| - j
  {
    hide Matches;
    assert ts[j..][1..] == ts[j + 1..];
    if ts[j].Nop? {
      k := SkipNops(strings, ts, j + 1, items);
    } else {
      k := j;
    }
  }

  /** The tokens of properties, and nops between them. */
  lemma {:induction false} SkipProps(strings: seq<Byte>, ts: seq<Token>, j: nat, props: seq<Property>, items: seq<Item>)
    returns (k: nat)
    requires j <= |ts| && Means(strings, ts[j..], FlatProps(props) + items)
    ensures j <= k <= |ts| && AllInert(ts, j, k) && Means(strings, ts[k..], items)
    decreases |props|
  {
    if props == [] {
      assert FlatProps(props) + items == items;
      k := j;
    } else {
      var all := FlatProps(props) + items;
      var m := SkipNops(strings, ts, j, all);
      assert all[1..] == FlatProps(props[1..]) + items;
      k := SkipProps(strings, ts, m + 1, props[1..], items);
    }
  }

  /** A node's items are found in the stream, at a place of its shape. */
  lemma {:induction false} FindNode(strings: seq<Byte>, ts: seq<Token>, j: nat, n: Node, items: seq<Item>) returns (p: Place)
    requires j <= |ts| && Means(strings, ts[j..], Flat(n) + items)
    ensures j <= p.start && NodeAt(ts, p) && PlaceOf(ts, p, n) && AllInert(ts, j, p.start)
    ensures Means(strings, ts[p.end..], items)
    decreases n, 1
  {
    hide NodeAt, Means, KidsAt, PlaceOf;
    var rest := FlatAll(n.children) + [EndOf] + items;
    var all := Flat(n) + items;
    assert all == [Begin(n.name)] + (FlatProps(n.props) + rest);
    var k := SkipNops(strings, ts, j, all);
    assert all[1..] == FlatProps(n.props) + rest;
    var m := SkipProps(strings, ts, k + 1, n.props, rest);
    assert FlatAll(n.children) + ([EndOf] + items) == rest;
    var kids, to := FindNodes(strings, ts, m, n.children, [EndOf] + items);
    p := Place(k, to + 1, kids);
    assert ([EndOf] + items)[1..] == items;
    KidsFrom(ts, k + 1, m, kids, to);
    NodeFrom(ts, p, n);
  }

  lemma NodeFrom(ts: seq<Token>, p: Place, n: Node)
    requires p.start + 2 <= p.end <= |ts| && ts[p.start] == BeginNode(n.name) && ts[p.end - 1].EndNode?
    requires KidsAt(ts, p.start + 1, p.kids, p.end - 1) && PlacesOf(ts, p.kids, n.children)
    ensures NodeAt(ts, p) && PlaceOf(ts, p, n)
  {
  }

  lemma KidsFrom(ts: seq<Token>, from: nat, m: nat, kids: seq<Place>, to: nat)
    requires from <= m <= to <= |ts| && AllInert(ts, from, m) && KidsAt(ts, m, kids, to)
    ensures KidsAt(ts, from, kids, to)
  {
    hide NodeAt;
  }

  lemma {:induction false} FindNodes(strings: seq<Byte>, ts: seq<Token>, j: nat, ns: seq<Node>, items: seq<Item>)
    returns (ps: seq<Place>, to: nat)
    requires j <= |ts| && Means(strings, ts[j..], FlatAll(ns) + items) && items != [] && items[0] == EndOf
    ensures j <= to < |ts| && ts[to].EndNode? && KidsAt(ts, j, ps, to) && PlacesOf(ts, ps, ns)
    ensures Means(strings, ts[to + 1..], items[1..])
    decreases ns, 0
  {
    hide NodeAt, Means, PlaceOf;
    if ns == [] {
      assert FlatAll(ns) + items == items;
      to := SkipNops(strings, ts, j, items);
      ps := [];
    } else {
      assert FlatAll(ns) + items == Flat(ns[0]) + (FlatAll(ns[1..]) + items);
      var p := FindNode(strings, ts, j, ns[0], FlatAll(ns[1..]) + items);
      KidsBounds(ts, p);
      var qs;
      qs, to := FindNodes(strings, ts, p.end, ns[1..], items);
      ps := [p] + qs;
      assert ps[1..] == qs;
    }
  }

  // ---- properties ----

  /** The first property of the node at token k with this name is token x; or x is where the properties end. */
  ghost predicate PropertyAt(strings: seq<Byte>, ts: seq<Token>, k: nat, name: Name, x: nat) {
    && k < x < |ts| && AllInert(ts, k + 1, x)
    && forall y :: k < y < x && ts[y].Prop? ==> !NameAt(strings, ts[y].nameoff, name)
  }

  /** The node at token k has a property with this name. */
  ghost predicate HasProperty(strings: seq<Byte>, ts: seq<Token>, k: nat, name: Name) {
    exists y: nat :: PropertyAt(strings, ts, k, name, y) && ts[y].Prop? && NameAt(strings, ts[y].nameoff, name)
  }

  lemma NoOther(strings: seq<Byte>, ts: seq<Token>, k: nat, name: Name, x: nat)
    requires PropertyAt(strings, ts, k, name, x) && !Inert(ts[x])
    ensures !HasProperty(strings, ts, k, name)
  {
    hide NameAt;
    forall y: nat | PropertyAt(strings, ts, k, name, y) && ts[y].Prop? ensures !NameAt(strings, ts[y].nameoff, name) {
      assert Inert(ts[y]);
    }
  }

  /** _nextprop: the next property at or after token j, if nothing but nops is in between. */
  method NextProp(b: seq<Byte>, offset: int, ghost ts: seq<Token>, ghost j: nat) returns (prop: int, ghost x: nat)
    requires Stream(b, ts) && j <= |ts| && offset == Pos(ts, j)
    ensures j <= x <= |ts| && forall y :: j <= y < x ==> ts[y].Nop?
    ensures x < |ts| ==> !ts[x].Nop?
    ensures prop == if x == |ts| then -TRUNCATED else if ts[x].Prop? then Pos(ts, x)
                    else if ts[x].End? then -BADSTRUCTURE else -NOTFOUND
    ensures prop < 0 ==> prop == -TRUNCATED || prop == -BADSTRUCTURE || prop == -NOTFOUND
    ensures prop >= 0 ==> exists y :: j <= y < |ts| && prop == Pos(ts, y) && ts[y].Prop?
  {
    hide Stream, Pos, NextTagOf;
    x := j;
    var here := offset;
    while true
      invariant j <= x <= |ts| && here == Pos(ts, x) && forall y :: j <= y < x ==> ts[y].Nop?
      decreases |ts| - x
    {
      ReadAt(b, ts, x);
      if x < |ts| {
        TagKinds(ts[x]);
      }
      var tag, next := NextTag(b, here);
      if tag == END {
        prop := if next >= 0 then -BADSTRUCTURE else next;
        return;
      } else if tag == PROP {
        prop := here;
        return;
      } else if tag != NOP {
        prop := -NOTFOUND;
        return;
      }
      here := next;
      x := x + 1;
    }
  }

  /** _fdt_string_eq: the string at an offset into the strings block is the name. */
  predicate StringEq(strings: seq<Byte>, off: nat, name: Name) {
    off + |name| < |strings| && strings[off..off + |name|] == name && strings[off + |name|] == 0
  }

  /** fdt_get_property: the offset of the first property of a node with this name, and its length, or an error. */
  method GetProperty(b: seq<Byte>, strings: seq<Byte>, nodeoffset: int, name: Name, ghost ts: seq<Token>, ghost k: nat)
    returns (prop: int, len: int, ghost x: nat)
    requires Stream(b, ts) && k + 1 < |ts| && ts[k].BeginNode? && nodeoffset == Pos(ts, k) && 0 !in name
    requires ts[|ts| - 1].End?
    ensures k < x < |ts| && PropertyAt(strings, ts, k, name, x)
    ensures prop >= 0 ==>
      ts[x].Prop? && NameAt(strings, ts[x].nameoff, name) && prop == Pos(ts, x) && len == |ts[x].value|
    ensures prop < 0 ==> !Inert(ts[x]) && len == prop == if ts[x].End? then -BADSTRUCTURE else -NOTFOUND
    ensures prop >= 0 <==> HasProperty(strings, ts, k, name)
    ensures prop < 0 ==> len == prop
  {
    hide Stream, Pos, NextTagOf, NameAt, Word;
    ReadAt(b, ts, k);
    TagKinds(ts[k]);
    var next := CheckNodeOffset(b, nodeoffset);
    x := k + 1;
    if next < 0 {
      return next, next, x;
    }
    prop, x := NextProp(b, next, ts, k + 1);
    while prop >= 0
      invariant PropertyAt(strings, ts, k, name, x) && !ts[x].Nop?
      invariant prop == if ts[x].Prop? then Pos(ts, x) else if ts[x].End? then -BADSTRUCTURE else -NOTFOUND
      decreases |ts| - x
    {
      PropFields(b, ts, x);
      len := Word(b, prop + 4);
      NameMatches(strings, Word(b, prop + 8), name);
      if StringEq(strings, Word(b, prop + 8), name) {
        assert PropertyAt(strings, ts, k, name, x);
        return;
      }
      ReadAt(b, ts, x);
      TagKinds(ts[x]);
      var tag;
      tag, next := NextTag(b, prop);
      prop, x := NextProp(b, next, ts, x + 1);
    }
    len := prop;
    NoOther(strings, ts, k, name, x);
  }

  lemma NameMatches(strings: seq<Byte>, off: nat, name: Name)
    requires 0 !in name
    ensures StringEq(strings, off, name) <==> NameAt(strings, off, name)
  {
  }

  /** The fields of a property in the block. */
  lemma PropFields(b: seq<Byte>, ts: seq<Token>, x: nat)
    requires Stream(b, ts) && x < |ts| && ts[x].Prop?
    ensures Pos(ts, x) + 12 + |ts[x].value| <= |b|
    ensures Word(b, Pos(ts, x) + 4) == |ts[x].value| && Word(b, Pos(ts, x) + 8) == ts[x].nameoff
    ensures b[Pos(ts, x) + 12..Pos(ts, x) + 12 + |ts[x].value|] == ts[x].value
  {
    hide Stream, TotalLen, Word, Pos;
    StreamAt(b, ts, x);
    var p, n := Pos(ts, x), Len(ts[x]);
    WordIn(b, p, n, 4);
    WordIn(b, p, n, 8);
    SubSlice(b, p, p + n, 12, 12 + |ts[x].value|);
  }

  // ---- subnodes by name ----

  const AT_SIGN: Byte := 0x40

  /** A name given for a node fits the node: it is the node's name, or the name without its unit address. */
  predicate Fits(node: Name, s: Name) {
    s <= node && (|s| == |node| || (AT_SIGN !in s && node[|s|] == AT_SIGN))
  }

  /** _fdt_nodename_eq, in the structure block. */
  predicate NodeNameEq(b: seq<Byte>, offset: nat, s: Name) {
    var p := offset + 4;
    && p + |s| + 1 <= |b| && b[p..p + |s|] == s
    && (b[p + |s|] == 0 || (AT_SIGN !in s && b[p + |s|] == AT_SIGN))
  }

  lemma NodeNameFits(b: seq<Byte>, ts: seq<Token>, k: nat, s: Name)
    requires Stream(b, ts) && k < |ts| && ts[k].BeginNode? && 0 !in s
    ensures NodeNameEq(b, Pos(ts, k), s) <==> Fits(ts[k].name, s)
  {
    hide Stream, TotalLen, Word, Pos;
    StreamAt(b, ts, k);
    var p, n, name := Pos(ts, k), Len(ts[k]), ts[k].name;
    SubSlice(b, p, p + n, 4, 4 + |name|);
    assert b[p + 4 + |name|] == b[p..p + n][4 + |name|] == 0;
    if |s| <= |name| {
      SubSlice(b, p + 4, p + 4 + |name|, 0, |s|);
      assert name[..|s|] == b[p + 4..p + 4 + |s|];
      assert |s| < |name| ==> b[p + 4 + |s|] == name[|s|] && name[|s|] in name;
    } else if p + 4 + |s| + 1 <= |b| {
      assert s[|name|] in s;
      assert b[p + 4..p + 4 + |s|][|name|] == 0;
    }
  }

  /** From the beginning of a node, or from inside one of its subnodes, fdt_next_node goes to the next subnode or
      deeper into this one; at its end, the depth is negative. */
  lemma NextInNode(ts: seq<Token>, n: Place, i: int, c: nat)
    requires NodeAt(ts, n) && -1 <= i < |n.kids|
    requires if i < 0 then c == n.start else n.kids[i].start <= c < n.kids[i].end
    ensures n.end <= |ts| && n.start <= c < |ts|
    ensures
      var a := n.start + 1;
      var (x, d) := Scan(ts, c + 1, Level(ts, a, c + 1));
      && c < x < |ts|
      && if i >= 0 && x < n.kids[i].end then ts[x].BeginNode? && d > 1 && d == Level(ts, a, x + 1)
         else if i + 1 < |n.kids| then
           x == n.kids[i + 1].start < n.kids[i + 1].end && d == 1 && ts[x].BeginNode? && d == Level(ts, a, x + 1)
         else x == n.end - 1 && d == -1 && ts[x].EndNode?
  {
    hide Level, Scan, NodeAt;
    KidsBounds(ts, n);
    if i + 1 < |n.kids| {
      KidFacts(ts, n.start + 1, n.kids, n.end - 1, i + 1);
      KidsBounds(ts, n.kids[i + 1]);
      LevelStep(ts, n.start + 1, n.kids[i + 1].start);
    }
    if i < 0 {
      LevelSame(ts, n.start + 1);
      FirstKid(ts, n);
    } else {
      FromKid(ts, n, i, c);
    }
  }

  /** The first subnodes do not fit the name. */
  ghost predicate NoneFits(ts: seq<Token>, n: Place, s: Name, upto: nat) {
    upto <= |n.kids| && forall j :: 0 <= j < upto ==>
      n.kids[j].start < |ts| && ts[n.kids[j].start].BeginNode? && !Fits(ts[n.kids[j].start].name, s)
  }

  /** fdt_subnode_offset_namelen: the first subnode that the name fits. */
  method SubnodeOffset(b: seq<Byte>, start: int, s: Name, ghost ts: seq<Token>, ghost n: Place)
    returns (offset: int, ghost i: int)
    requires Stream(b, ts) && NodeAt(ts, n) && n.start <= |ts| && start == Pos(ts, n.start) && 0 !in s
    ensures offset >= 0 ==>
      && 0 <= i < |n.kids| && n.kids[i].start < |ts| && offset == Pos(ts, n.kids[i].start)
      && ts[n.kids[i].start].BeginNode? && Fits(ts[n.kids[i].start].name, s) && NoneFits(ts, n, s, i)
    ensures offset < 0 ==> offset == -NOTFOUND && NoneFits(ts, n, s, |n.kids|)
  {
    hide Stream, NodeAt, Pos, Scan, Level, Fits, NodeNameEq;
    ghost var c := n.start;
    i := -1;
    KidsBounds(ts, n);
    LevelSame(ts, n.start + 1);
    var depth := 0;
    offset := start;
    while offset >= 0 && depth >= 0
      invariant -1 <= i < |n.kids| && n.start <= c && n.end <= |ts|
      invariant depth >= 0 ==>
        && c < |ts| && ts[c].BeginNode? && offset == Pos(ts, c) && depth == Level(ts, n.start + 1, c + 1)
        && (if i < 0 then c == n.start && depth == 0 else n.kids[i].start <= c < n.kids[i].end && depth >= 1)
        && (depth == 1 ==> c == n.kids[i].start) && NoneFits(ts, n, s, if depth == 1 then i else i + 1)
      invariant depth < 0 ==> NoneFits(ts, n, s, |n.kids|)
      decreases if depth < 0 then 0 else |ts| - c + 1
    {
      if depth == 1 {
        NodeNameFits(b, ts, c, s);
        if NodeNameEq(b, offset, s) {
          return;
        }
      }
      NextInNode(ts, n, i, c);
      ghost var x := Scan(ts, c + 1, depth).0;
      offset, depth := NextNode(b, offset, depth, ts, c);
      if i < 0 || x >= n.kids[i].end {
        if i + 1 < |n.kids| {
          i := i + 1;
        }
      }
      c := x;
    }
    if depth < 0 {
      return -NOTFOUND, i;
    }
  }

  /** strlen of a node's name. */
  lemma NameLength(b: seq<Byte>, ts: seq<Token>, k: nat)
    requires Stream(b, ts) && k < |ts| && ts[k].BeginNode?
    ensures Pos(ts, k) + 4 + |ts[k].name| < |b|
    ensures NulFrom(b, Pos(ts, k) + 4) == Pos(ts, k) + 4 + |ts[k].name|
    ensures b[Pos(ts, k) + 4..Pos(ts, k) + 4 + |ts[k].name|] == ts[k].name
  {
    hide Stream, TotalLen, Word, Pos;
    StreamAt(b, ts, k);
    var p, n, name := Pos(ts, k), Len(ts[k]), ts[k].name;
    SubSlice(b, p, p + n, 4, 4 + |name|);
    assert b[p + 4 + |name|] == b[p..p + n][4 + |name|] == 0;
    NotNul(b, p + 4, name);
  }

  /** fdt_get_name: the name of a node, and its length. */
  method GetName(b: seq<Byte>, nodeoffset: int, ghost ts: seq<Token>, ghost k: nat) returns (name: Name, len: int)
    requires Stream(b, ts) && k < |ts| && ts[k].BeginNode? && nodeoffset == Pos(ts, k)
    ensures name == ts[k].name && len == |name|
  {
    hide Stream, TotalLen, NextTagOf, Pos, Len, NulFrom;
    ReadAt(b, ts, k);
    TagKinds(ts[k]);
    NameLength(b, ts, k);
    var err := CheckNodeOffset(b, nodeoffset);
    if err < 0 {
      return [], err;
    }
    len := NulFrom(b, nodeoffset + 4) - (nodeoffset + 4);
    name := b[nodeoffset + 4..nodeoffset + 4 + len];
  }
}
