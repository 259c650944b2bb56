/** The structure block of a flattened device tree: a stream of tokens, each a big-endian word followed by what
    the token carries, padded to a multiple of four bytes. */
module FdtFormat {

  type Byte = b: int | 0 <= b < 0x100

  // ---- words ----

  function Word(b: seq<Byte>, i: nat): (v: nat)
    requires i + 4 <= |b|
    ensures v < 0x1_0000_0000
  {
    b[i] as int * 0x100_0000 + b[i + 1] as int * 0x1_0000 + b[i + 2] as int * 0x100 + b[i + 3] as int
  }

  function WordBytes(v: nat): (b: seq<Byte>)
    requires v < 0x1_0000_0000
    ensures |b| == 4
  {
    [v / 0x100_0000, v / 0x1_0000 % 0x100, v / 0x100 % 0x100, v % 0x100]
  }

  lemma WordRoundTrip(v: nat)
    requires v < 0x1_0000_0000
    ensures Word(WordBytes(v), 0) == v
  {
    assert v / 0x1_0000 == v / 0x100_0000 * 0x100 + v / 0x1_0000 % 0x100;
    assert v / 0x100 == v / 0x1_0000 * 0x100 + v / 0x100 % 0x100;
  }

  function Align(n: nat): (a: nat)
    ensures n <= a < n + 4 && a % 4 == 0
  {
    (n + 3) / 4 * 4
  }

  // ---- tokens ----

  const BEGIN_NODE := 1
  const END_NODE := 2
  const PROP := 3
  const NOP := 4
  const END := 9

  /** What fdt_next_tag steps over. A property refers to its name by an offset into the strings block. */
  datatype Token = BeginNode(name: seq<Byte>) | EndNode | Prop(nameoff: nat, value: seq<Byte>) | Nop | End

  function Tag(t: Token): nat {
    match t
    case BeginNode(_) => BEGIN_NODE
    case EndNode => END_NODE
    case Prop(_, _) => PROP
    case Nop => NOP
    case End => END
  }

  /** The length of a token before padding. */
  function RawLen(t: Token): (n: nat) {
    match t
    case BeginNode(name) => 4 + |name| + 1
    case Prop(_, value) => 12 + |value|
    case _ => 4
  }

  function Len(t: Token): (n: nat)
    ensures n >= 4 && n % 4 == 0 && RawLen(t) <= n < RawLen(t) + 4
  {
    Align(RawLen(t))
  }

  /** These bytes are the token; what the padding holds does not matter. */
  ghost predicate Encodes(b: seq<Byte>, t: Token) {
    && |b| == Len(t) && Word(b, 0) == Tag(t)
    && match t
       case BeginNode(name) => 0 !in name && b[4..4 + |name|] == name && b[4 + |name|] == 0
       case Prop(nameoff, value) => Word(b, 4) == |value| && Word(b, 8) == nameoff && b[12..12 + |value|] == value
       case _ => true
  }

  lemma WordAt(b: seq<Byte>, i: nat, v: nat)
    requires v < 0x1_0000_0000 && i + 4 <= |b| && b[i..i + 4] == WordBytes(v)
    ensures Word(b, i) == v
  {
    WordRoundTrip(v);
    var w := WordBytes(v);
    assert b[i] == w[0] && b[i + 1] == w[1] && b[i + 2] == w[2] && b[i + 3] == w[3];
  }

  lemma EncodesBegin(b: seq<Byte>, name: seq<Byte>)
    requires 0 !in name && |b| == Len(BeginNode(name))
    requires b[..4] == WordBytes(BEGIN_NODE) && b[4..4 + |name| + 1] == name + [0]
    ensures Encodes(b, BeginNode(name))
  {
    hide Word, WordBytes;
    WordAt(b, 0, BEGIN_NODE);
    var c := b[4..4 + |name| + 1];
    assert c[..|name|] == name && c[|name|] == 0;
    assert b[4..4 + |name|] == c[..|name|] && b[4 + |name|] == c[|name|];
  }

  lemma EncodesProp(b: seq<Byte>, nameoff: nat, value: seq<Byte>)
    requires nameoff < 0x1_0000_0000 && |value| < 0x1_0000_0000 && |b| == Len(Prop(nameoff, value))
    requires b[..4] == WordBytes(PROP) && b[4..8] == WordBytes(|value|) && b[8..12] == WordBytes(nameoff)
    requires b[12..12 + |value|] == value
    ensures Encodes(b, Prop(nameoff, value))
  {
    hide Word, WordBytes;
    WordAt(b, 0, PROP);
    WordAt(b, 4, |value|);
    WordAt(b, 8, nameoff);
  }

  lemma EncodesBare(b: seq<Byte>, t: Token)
    requires t.EndNode? || t.Nop? || t.End?
    requires b == WordBytes(Tag(t))
    ensures Encodes(b, t)
  {
    hide Word, WordBytes;
    assert b[0..4] == b;
    WordAt(b, 0, Tag(t));
  }

  function TotalLen(ts: seq<Token>): nat {
    if ts == [] then 0 else Len(ts[0]) + TotalLen(ts[1..])
  }

  /** The bytes are these tokens, one after the other, to the last byte. */
  ghost predicate Stream(b: seq<Byte>, ts: seq<Token>) {
    if ts == [] then b == []
    else |b| >= Len(ts[0]) && Encodes(b[..Len(ts[0])], ts[0]) && Stream(b[Len(ts[0])..], ts[1..])
  }

  lemma {:induction false} StreamLen(b: seq<Byte>, ts: seq<Token>)
    requires Stream(b, ts)
    ensures |b| == TotalLen(ts)
  {
    if ts != [] {
      StreamLen(b[Len(ts[0])..], ts[1..]);
    }
  }

  lemma {:induction false} TotalLenConcat(ts: seq<Token>, us: seq<Token>)
    ensures TotalLen(ts + us) == TotalLen(ts) + TotalLen(us)
  {
    if ts == [] {
      assert ts + us == us;
    } else {
      assert (ts + us)[1..] == ts[1..] + us;
      TotalLenConcat(ts[1..], us);
    }
  }

  lemma {:induction false} StreamConcat(a: seq<Byte>, ts: seq<Token>, b: seq<Byte>, us: seq<Token>)
    requires Stream(a, ts) && Stream(b, us)
    ensures Stream(a + b, ts + us)
  {
    hide Encodes, Len;
    if ts == [] {
      assert a + b == b && ts + us == us;
    } else {
      var n := Len(ts[0]);
      StreamConcat(a[n..], ts[1..], b, us);
      assert (a + b)[..n] == a[..n] && (a + b)[n..] == a[n..] + b;
      assert (ts + us)[1..] == ts[1..] + us;
    }
  }

  /** A stream can be cut between any two tokens. */
  lemma {:induction false} StreamSplit(b: seq<Byte>, ts: seq<Token>, us: seq<Token>)
    requires Stream(b, ts + us)
    ensures TotalLen(ts) <= |b|
    ensures Stream(b[..TotalLen(ts)], ts) && Stream(b[TotalLen(ts)..], us)
  {
    hide Encodes;
    if ts == [] {
      assert ts + us == us && b[0..] == b;
    } else {
      var n := Len(ts[0]);
      assert (ts + us)[1..] == ts[1..] + us;
      StreamSplit(b[n..], ts[1..], us);
      var m := TotalLen(ts);
      assert b[..m][..n] == b[..n] && b[..m][n..] == b[n..][..m - n] && b[m..] == b[n..][m - n..];
    }
  }

  lemma StreamOne(b: seq<Byte>, t: Token)
    ensures Stream(b, [t]) <==> Encodes(b, t)
  {
    hide Encodes;
    if |b| >= Len(t) {
      assert Stream(b[Len(t)..], []) <==> |b| == Len(t);
      assert |b| == Len(t) ==> b[..Len(t)] == b;
    }
    if Encodes(b, t) {
      EncodesLen(b, t);
    }
  }

  lemma EncodesLen(b: seq<Byte>, t: Token)
    requires Encodes(b, t)
    ensures |b| == Len(t)
  {
  }

  // ---- reading ----

  const NOTFOUND := 1
  const EXISTS := 2
  const NOSPACE := 3
  const BADOFFSET := 4
  const BADSTATE := 7
  const TRUNCATED := 8
  const BADVERSION := 10
  const BADSTRUCTURE := 11
  const INTERNAL := 13

  /** The first zero byte at or after i, or the end. */
  function NulFrom(b: seq<Byte>, i: nat): (z: nat)
    requires i <= |b|
    ensures i <= z <= |b| && (z < |b| ==> b[z] == 0) && forall k :: i <= k < z ==> b[k] != 0
    decreases |b| - i
  {
    if i == |b| || b[i] == 0 then i else NulFrom(b, i + 1)
  }

  /** The end of the token at an offset, before padding; beyond the end of the block if there is no such token. */
  function RawEnd(b: seq<Byte>, start: nat): nat
    requires start + 4 <= |b|
  {
    var tag := Word(b, start);
    if tag == BEGIN_NODE then NulFrom(b, start + 4) + 1
    else if tag == PROP then if start + 8 <= |b| then start + 12 + Word(b, start + 4) else |b| + 1
    else if tag == END || tag == END_NODE || tag == NOP then start + 4
    else |b| + 1
  }

  /** The tag at an offset, and the offset of the next one or a negative error. */
  function NextTagOf(b: seq<Byte>, start: nat): (nat, int) {
    if start + 4 > |b| then (END, -TRUNCATED)
    else if RawEnd(b, start) > |b| then (END, -BADSTRUCTURE)
    else (Word(b, start), Align(RawEnd(b, start)))
  }

  /** fdt_next_tag. */
  method NextTag(b: seq<Byte>, start: nat) returns (tag: nat, next: int)
    ensures (tag, next) == NextTagOf(b, start)
  {
    hide Word, Align;
    if start + 4 > |b| {
      return END, -TRUNCATED;
    }
    tag := Word(b, start);
    var offset := start + 4;
    if tag == BEGIN_NODE {
      while offset < |b| && b[offset] != 0
        invariant start + 4 <= offset <= |b| && NulFrom(b, offset) == NulFrom(b, start + 4)
      {
        offset := offset + 1;
      }
      if offset >= |b| {
        return END, -BADSTRUCTURE;
      }
      offset := offset + 1;
    } else if tag == PROP {
      if offset + 4 > |b| {
        return END, -BADSTRUCTURE;
      }
      offset := offset + 8 + Word(b, offset);
    } else if tag != END && tag != END_NODE && tag != NOP {
      return END, -BADSTRUCTURE;
    }
    if offset > |b| {
      return END, -BADSTRUCTURE;
    }
    next := Align(offset);
  }

  lemma NextTagBounds(b: seq<Byte>, start: nat)
    ensures
      var (tag, next) := NextTagOf(b, start);
      && (tag != END ==> next >= start + 4)
      && (next < 0 ==> tag == END && (next == -TRUNCATED || next == -BADSTRUCTURE))
      && (start >= |b| ==> (tag, next) == (END, -TRUNCATED))
  {
    hide Word;
  }

  /** At the beginning of a token, fdt_next_tag returns its tag and where the next token begins. */
  lemma NextTagOfToken(b: seq<Byte>, start: nat, t: Token)
    requires start % 4 == 0 && TokenAt(b, start, t)
    ensures NextTagOf(b, start) == (Tag(t), start + Len(t))
  {
    hide Align;
    var n, c := Len(t), b[start..start + Len(t)];
    AlignFrom(start, RawLen(t));
    WordIn(b, start, n, 0);
    if t.BeginNode? {
      var z := start + 4 + |t.name|;
      forall k | start + 4 <= k < z ensures b[k] != 0 {
        assert b[k] == c[4..4 + |t.name|][k - start - 4];
      }
      assert b[z] == c[4 + |t.name|];
      assert NulFrom(b, start + 4) == z;
    } else if t.Prop? {
      WordIn(b, start, n, 4);
    }
  }

  lemma WordIn(b: seq<Byte>, start: nat, n: nat, i: nat)
    requires start + n <= |b| && i + 4 <= n
    ensures Word(b[start..start + n], i) == Word(b, start + i)
  {
  }

  lemma AlignFrom(start: nat, n: nat)
    ensures start % 4 == 0 ==> Align(start + n) == start + Align(n)
  {
  }

  ghost predicate TokenAt(b: seq<Byte>, start: nat, t: Token) {
    start + Len(t) <= |b| && Encodes(b[start..start + Len(t)], t)
  }

  /** Where token k begins. */
  function Pos(ts: seq<Token>, k: nat): nat
    requires k <= |ts|
  {
    TotalLen(ts[..k])
  }

  lemma {:induction false} TotalLenAligned(ts: seq<Token>)
    ensures TotalLen(ts) % 4 == 0 && TotalLen(ts) >= 4 * |ts|
  {
    if ts != [] {
      TotalLenAligned(ts[1..]);
    }
  }

  lemma PosNext(ts: seq<Token>, k: nat)
    requires k < |ts|
    ensures Pos(ts, k + 1) == Pos(ts, k) + Len(ts[k])
    ensures Pos(ts, k) % 4 == 0
  {
    assert ts[..k + 1] == ts[..k] + [ts[k]];
    TotalLenConcat(ts[..k], [ts[k]]);
    assert [ts[k]][1..] == [];
    assert TotalLen([ts[k]]) == Len(ts[k]);
    TotalLenAligned(ts[..k]);
  }

  /** Reading a stream at the beginning of its token k. */
  lemma StreamAt(b: seq<Byte>, ts: seq<Token>, k: nat)
    requires Stream(b, ts) && k < |ts|
    ensures Pos(ts, k) % 4 == 0 && TokenAt(b, Pos(ts, k), ts[k]) && Pos(ts, k + 1) == Pos(ts, k) + Len(ts[k])
  {
    hide Encodes, Len, TotalLen, Stream;
    assert ts == ts[..k] + ts[k..];
    StreamSplit(b, ts[..k], ts[k..]);
    PosNext(ts, k);
    FirstToken(b[Pos(ts, k)..], ts[k..]);
    var p, n := Pos(ts, k), Len(ts[k]);
    assert b[p..][..n] == b[p..p + n];
  }

  lemma FirstToken(b: seq<Byte>, ts: seq<Token>)
    requires Stream(b, ts) && ts != []
    ensures Len(ts[0]) <= |b| && Encodes(b[..Len(ts[0])], ts[0])
  {
  }

  lemma PosOrder(ts: seq<Token>, j: nat, k: nat)
    requires j < k <= |ts|
    ensures Pos(ts, j) + 4 <= Pos(ts, k)
  {
    assert ts[..k] == ts[..j] + ts[j..k];
    TotalLenConcat(ts[..j], ts[j..k]);
    TotalLenAligned(ts[j..k]);
  }

  // ---- editing a stream ----

  /** Tokens j up to k replaced by others, in the bytes and in the stream. */
  lemma StreamReplace(b: seq<Byte>, ts: seq<Token>, j: nat, k: nat, c: seq<Byte>, us: seq<Token>)
    requires Stream(b, ts) && j <= k <= |ts| && Stream(c, us)
    ensures Pos(ts, j) <= Pos(ts, k) <= |b|
    ensures Stream(b[..Pos(ts, j)] + c + b[Pos(ts, k)..], ts[..j] + us + ts[k..])
  {
    hide Stream, TotalLen;
    StreamCut(b, ts, j);
    StreamCut(b, ts, k);
    if j < k {
      PosOrder(ts, j, k);
    }
    StreamConcat(b[..Pos(ts, j)], ts[..j], c, us);
    StreamConcat(b[..Pos(ts, j)] + c, ts[..j] + us, b[Pos(ts, k)..], ts[k..]);
  }

  lemma StreamCut(b: seq<Byte>, ts: seq<Token>, k: nat)
    requires Stream(b, ts) && k <= |ts|
    ensures Pos(ts, k) <= |b| && Stream(b[..Pos(ts, k)], ts[..k]) && Stream(b[Pos(ts, k)..], ts[k..])
  {
    hide Stream, TotalLen;
    assert ts == ts[..k] + ts[k..];
    StreamSplit(b, ts[..k], ts[k..]);
  }
}
