/** Physical memory: 4 KiB frames of 512 words, and the machine state that the
    page allocator and the paging code share. */
module PhysMem {

  const FRAMES: nat := 0x100_0000_0000
  const PAGE_SIZE: nat := 4096
  const ENTRIES: nat := 512

  /** A frame number: a physical address shifted right by PAGE_SHIFT. Frame 0 is the NULL pointer. */
  type Pfn = n: nat | n < FRAMES

  /** A 64-bit word, cut at the borders of the address field that every paging format uses:
      bits 63..52, the frame number in bits 51..12, bits 11..0. */
  datatype Word = Word(hi: bv12, frame: Pfn, lo: bv12)

  const ZERO_WORD := Word(0, 0, 0)

  type Page = s: seq<Word> | |s| == ENTRIES witness seq(ENTRIES, _ => ZERO_WORD)

  /** What memset leaves in a page. */
  function ZeroPage(): (p: Page)
    ensures forall i: nat :: i < 512 ==> p[i] == ZERO_WORD
  {
    seq(512, _ => ZERO_WORD)
  }

  type Memory = map<Pfn, Page>

  /** The word w, whose address field is clear, combined with the address of page p by a bitwise or.
      An address beyond bit 51 spills into bit 52. */
  function OrAddress(w: Word, p: nat): Word
    requires w.frame == 0 && p < 2 * FRAMES
  {
    Word(if p < FRAMES then w.hi else w.hi | 1, p % FRAMES, w.lo)
  }

  /** A pointer to the start of frame f, stored in a word. */
  function Pointer(f: Pfn): (w: Word) {
    Word(0, f, 0)
  }

  /** The word at index i of frame f replaced by w. */
  function Store(m: Memory, f: Pfn, i: nat, w: Word): (r: Memory)
    requires f in m && i < ENTRIES
    ensures r.Keys == m.Keys
    ensures r[f][i] == w
    ensures forall j: nat :: j < ENTRIES && j != i ==> r[f][j] == m[f][j]
    ensures forall g :: g in m && g != f ==> r[g] == m[g]
  {
    m[f := m[f][i := w]]
  }

  /** The numbers f, f+1, ..., f+n-1. */
  function Consecutive(f: Pfn, n: nat): (s: seq<Pfn>)
    requires f + n <= FRAMES
    ensures |s| == n && forall i :: 0 <= i < n ==> s[i] == f + i
  {
    seq(n, i requires 0 <= i < n => f + i)
  }

  ghost predicate NoDuplicates<T>(s: seq<T>) {
    forall i, j :: 0 <= i < j < |s| ==> s[i] != s[j]
  }

  ghost function Elements(s: seq<nat>): (r: set<nat>)
    ensures forall x :: x in r <==> x in s
  {
    set x | x in s
  }

  /** What the link word of s[i] points to when s is threaded and followed by the list at end. */
  function Successor(s: seq<Pfn>, i: nat, end: Pfn): Pfn {
    if i + 1 < |s| then s[i + 1] else end
  }

  ghost predicate LinkedAt(m: Memory, s: seq<Pfn>, i: nat, end: Pfn) {
    i < |s| && s[i] != 0 && s[i] in m && m[s[i]][0] == Pointer(Successor(s, i, end))
  }

  /** The free list is threaded through the free pages: word 0 of each page points to the next one. */
  ghost predicate Threaded(m: Memory, head: nat, free: seq<Pfn>) {
    && head == (if free == [] then 0 else free[0])
    && NoDuplicates(free)
    && forall i: nat :: i < |free| ==> LinkedAt(m, free, i, 0)
  }

  lemma ThreadedTail(m: Memory, head: nat, free: seq<Pfn>)
    requires Threaded(m, head, free) && free != []
    ensures head in m && Threaded(m, m[head][0].frame, free[1..])
  {
    assert LinkedAt(m, free, 0, 0);
    forall i: nat | i < |free[1..]| ensures LinkedAt(m, free[1..], i, 0) {
      assert LinkedAt(m, free, i + 1, 0);
    }
  }

  lemma FreeHead(m: Memory, head: nat, free: seq<Pfn>)
    requires Threaded(m, head, free)
    ensures NoDuplicates(free)
    ensures free != [] ==> free[0] != 0 && free[0] in m && free[0] in free && free[0] !in free[1..]
  {
    assert free != [] ==> LinkedAt(m, free, 0, 0);
  }

  /** The list is not affected by writes elsewhere. */
  lemma ThreadedElsewhere(m: Memory, m': Memory, head: nat, free: seq<Pfn>)
    requires Threaded(m, head, free)
    requires forall f :: f in free && f in m ==> f in m' && m'[f] == m[f]
    ensures Threaded(m', head, free)
  {
    forall i: nat | i < |free| ensures LinkedAt(m', free, i, 0) {
      assert LinkedAt(m, free, i, 0);
    }
  }

  /** A chain of pages in front of a threaded list makes a threaded list. */
  lemma ThreadedPrepend(m: Memory, m': Memory, head: Pfn, free: seq<Pfn>, front: seq<Pfn>)
    requires Threaded(m, head, free)
    requires front != [] && NoDuplicates(front)
    requires forall i: nat :: i < |front| ==> LinkedAt(m', front, i, head) && front[i] !in free
    requires forall f :: f in free && f in m ==> f in m' && m'[f][0] == m[f][0]
    ensures Threaded(m', front[0], front + free)
  {
    var all := front + free;
    forall i: nat | i < |all| ensures LinkedAt(m', all, i, 0) {
      if i < |front| {
        assert LinkedAt(m', front, i, head);
      } else {
        assert LinkedAt(m, free, i - |front|, 0);
        assert all[i] == free[i - |front|];
      }
    }
  }

  /** The list without the pages at k .. k+n-1. */
  function Cut(free: seq<Pfn>, k: nat, n: nat): (r: seq<Pfn>)
    requires k + n <= |free|
    ensures |r| == |free| - n
    ensures forall i :: 0 <= i < k ==> r[i] == free[i]
    ensures forall i :: k <= i < |r| ==> r[i] == free[i + n]
  {
    free[..k] + free[k + n..]
  }

  lemma CutHasNoDuplicates(free: seq<Pfn>, k: nat, n: nat)
    requires NoDuplicates(free) && k + n <= |free|
    ensures NoDuplicates(Cut(free, k, n))
  {
    var r := Cut(free, k, n);
    forall i, j | 0 <= i < j < |r| ensures r[i] != r[j] {
      assert free[if i < k then i else i + n] != free[if j < k then j else j + n];
    }
  }

  /** Unlinking the pages k .. k+n-1 by one write to the link word of page k-1. */
  lemma ThreadedCut(m: Memory, m': Memory, head: Pfn, free: seq<Pfn>, k: nat, n: nat)
    requires Threaded(m, head, free) && 0 < n && k + n <= |free|
    requires k == 0 ==> m' == m
    requires k > 0 ==> free[k - 1] in m && m' == Store(m, free[k - 1], 0, Pointer(Successor(free, k + n - 1, 0)))
    ensures Threaded(m', if k > 0 then head else Successor(free, n - 1, 0), Cut(free, k, n))
  {
    var r := Cut(free, k, n);
    CutHasNoDuplicates(free, k, n);
    assert LinkedAt(m, free, 0, 0);
    if k > 0 {
      assert LinkedAt(m, free, k - 1, 0);
    }
    forall i: nat | i < |r| ensures LinkedAt(m', r, i, 0) {
      var j := if i < k then i else i + n;
      assert LinkedAt(m, free, j, 0);
      assert i + 1 != k ==> Successor(free, j, 0) == Successor(r, i, 0);
    }
  }

  /** The globals of the page allocator together with the memory they live in.
      The field free is the list that freelist heads, kept for specifications only. */
  class Machine {
    var mem: Memory
    var freelist: Pfn
    ghost var free: seq<Pfn>

    constructor (mem: Memory)
      ensures Valid() && this.mem == mem && free == []
    {
      this.mem := mem;
      freelist := 0;
      free := [];
    }

    ghost predicate Valid()
      reads this
    {
      Threaded(mem, freelist, free)
    }
  }

  /** How many pages lie before entry j of a table that splits a 2 MiB (level 2) or 1 GiB (level 3)
      page. */
  function PagesBefore(level: nat, j: nat): nat {
    if level == 2 then j else 512 * j
  }

  /** The words w, each combined with the address of its part of the large page at frame base. */
  function FilledPage(w: Word, base: Pfn, level: nat): (p: Page)
    requires w.frame == 0
    ensures forall j: nat :: j < 512 ==> p[j] == OrAddress(w, base + PagesBefore(level, j))
  {
    seq(512, j requires 0 <= j < 512 => OrAddress(w, base + PagesBefore(level, j)))
  }

  /** The loop with which a large page is split: fills frame n entry by entry. */
  method FillPage(s: Machine, n: Pfn, w: Word, base: Pfn, level: nat)
    requires n in s.mem && w.frame == 0
    modifies s`mem
    ensures s.mem == old(s.mem)[n := FilledPage(w, base, level)]
  {
    var pa: nat := base;
    for j := 0 to 512
      invariant s.mem.Keys == old(s.mem).Keys
      invariant forall g :: g in s.mem && g != n ==> s.mem[g] == old(s.mem)[g]
      invariant pa == base + PagesBefore(level, j)
      invariant forall k: nat :: k < j ==> s.mem[n][k] == OrAddress(w, base + PagesBefore(level, k))
    {
      s.mem := Store(s.mem, n, j, OrAddress(w, pa));
      pa := pa + (if level == 2 then 1 else 512);
    }
    assert s.mem[n] == FilledPage(w, base, level);
  }

  // ---- splitting a large page, as both paging formats do it ----

  const LARGE_PAGE: bv12 := 0x80

  function ClearLarge(e: Word): Word {
    Word(e.hi, e.frame, e.lo & !LARGE_PAGE)
  }

  function Prototype(e: Word, l: nat): (w: Word)
    ensures w.frame == 0
  {
    if l == 2 then ClearLarge(e.(frame := 0)) else e.(frame := 0)
  }

  function SplitPage(e: Word, l: nat): Page
    requires l == 2 || l == 3
  {
    FilledPage(Prototype(e, l), e.frame, l)
  }

  function SplitParent(e: Word, n: Pfn): Word {
    ClearLarge(e).(frame := n)
  }
}
