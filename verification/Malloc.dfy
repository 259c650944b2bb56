/** memalign and free on top of a block allocator, and the page allocator as that block allocator. */
module Malloc {
  import opened Arithmetic
  import opened PhysMem
  import opened PageAllocator

  const WORD: nat := 0x1_0000_0000_0000_0000
  const METADATA_EXTRA: nat := 16

  /** What is left of x in 64 bits. */
  function Wrap(x: nat): (r: nat)
    ensures r < WORD
    ensures x < WORD ==> r == x
    ensures x >= WORD ==> r <= x - WORD
  {
    x % 0x1_0000_0000_0000_0000
  }

  /** The multiple of a at or below x: for a power of two, x with the low bits cleared. */
  function RoundDown(x: nat, a: nat): (r: nat)
    requires a > 0
    ensures r <= x < r + a
  {
    x - x % a
  }

  lemma RoundDownIsMultiple(x: nat, a: nat)
    requires a > 0
    ensures RoundDown(x, a) % a == 0
  {
    var y := RoundDown(x, a);
    assert x == a * (x / a) + x % a && y == a * (y / a) + y % a;
    assert a * (x / a - y / a) == y % a;
    if x / a > y / a {
      assert a * (x / a - y / a) >= a by {
        TimesAtLeast(a, x / a - y / a);
      }
    }
  }

  lemma TimesAtLeast(a: nat, d: nat)
    requires d > 0
    ensures a * d >= a
  {
  }

  /** The multiple of a at or above x. */
  function RoundUp(x: nat, a: nat): (r: nat)
    requires a > 0
    ensures x <= r < x + a
  {
    RoundDown(x + a - 1, a)
  }

  /** The same in 64 bits. */
  function Align(x: nat, a: nat): (r: nat)
    requires a > 0
    ensures x + a - 1 < WORD ==> r == RoundUp(x, a)
    ensures x + a - 1 >= WORD ==> r <= x + a - 1 - WORD
  {
    RoundDown(Wrap(x + a - 1), a)
  }

  /** The alignment that memalign works with. */
  function Alignment(alignment: nat): (r: nat)
    ensures r >= 8 && r >= alignment
  {
    if alignment <= 8 then 8 else alignment
  }

  /** What memalign needs: room for the size, for the metadata, and for moving up to an aligned address. */
  function Needed(alignment: nat, size: nat): nat {
    (if alignment <= 8 then size else size + alignment - 1) + METADATA_EXTRA
  }

  /** The size of the block that memalign asks the block allocator for. */
  function BlockSize(alignment: nat, size: nat, alignMin: nat): nat
    requires alignMin > 0
  {
    Align(Wrap(Needed(alignment, size)), alignMin)
  }

  /** No sum on the way to the block size exceeds 64 bits. */
  predicate NoOverflow(alignment: nat, size: nat, alignMin: nat) {
    Needed(alignment, size) + alignMin - 1 < WORD
  }

  /** Where the caller's memory starts in the block at base. */
  function PlaceIn(base: nat, alignment: nat): (mem: nat) {
    RoundUp(base + METADATA_EXTRA, Alignment(alignment))
  }

  predicate FitsIn(base: nat, blockSize: nat, mem: nat, size: nat) {
    base <= mem - METADATA_EXTRA && mem + size <= base + blockSize
  }

  /** Wherever the block lies, the caller's memory is aligned, and it lies in the block together with its
      two words of metadata, exactly when the computation of the block's size does not overflow. */
  lemma PlacementFitsIff(alignment: nat, size: nat, alignMin: nat, base: nat)
    requires 0 < alignMin <= 0x1000 && alignment <= 0x8000_0000_0000_0000 && size < WORD
    requires base % 8 == 0
    ensures PlaceIn(base, alignment) % Alignment(alignment) == 0
    ensures FitsIn(base, BlockSize(alignment, size, alignMin), PlaceIn(base, alignment), size)
      <==> NoOverflow(alignment, size, alignMin)
    ensures NoOverflow(alignment, size, alignMin) ==>
      size + 16 <= BlockSize(alignment, size, alignMin) < size + 16 + (if alignment <= 8 then 0 else alignment - 1) + alignMin
  {
    RoundDownIsMultiple(base + METADATA_EXTRA + Alignment(alignment) - 1, Alignment(alignment));
    var needed := Needed(alignment, size);
    if alignment <= 8 {
      assert PlaceIn(base, alignment) == base + 16;
    }
    if needed < WORD {
      assert Wrap(needed) == needed;
    }
  }

  // ---- memalign and free ----

  /** The metadata below ptr describe a block of the given size that starts at base. */
  ghost predicate Describes(words: map<nat, nat>, ptr: nat, base: nat, size: nat) {
    && ptr >= 16 && base <= ptr && ptr - 16 in words && ptr - 8 in words
    && words[ptr - 16] == ptr - base && words[ptr - 8] == size
  }

  /** The memory words in which memalign keeps its metadata, by address. */
  class Heap {
    var words: map<nat, nat>

    constructor ()
      ensures words == map[]
    {
      words := map[];
    }

    /** memalign, once the block allocator has answered with a block at base for BlockSize(...) bytes. */
    method Memalign(alignment: nat, size: nat, alignMin: nat, base: nat) returns (ptr: nat)
      requires 0 < alignMin <= 0x1000 && alignment <= 0x8000_0000_0000_0000 && size < WORD
      requires base % 8 == 0 && NoOverflow(alignment, size, alignMin)
      modifies this
      ensures ptr % Alignment(alignment) == 0
      ensures FitsIn(base, BlockSize(alignment, size, alignMin), ptr, size)
      ensures BlockSize(alignment, size, alignMin) < size + 16 + (if alignment <= 8 then 0 else alignment - 1) + alignMin
      ensures Describes(words, ptr, base, BlockSize(alignment, size, alignMin))
      ensures words == old(words)[ptr - 16 := ptr - base][ptr - 8 := BlockSize(alignment, size, alignMin)]
    {
      PlacementFitsIff(alignment, size, alignMin, base);
      var a, needed := alignment, size;
      if a <= 8 {
        a := 8;
      } else {
        needed := needed + (a - 1);
      }
      needed := Align(Wrap(needed + METADATA_EXTRA), alignMin);
      ptr := RoundUp(base + METADATA_EXTRA, a);
      words := words[ptr - 16 := ptr - base];
      words := words[ptr - 8 := needed];
    }

    /** free: the block that goes back to the block allocator. */
    method Free(ptr: nat, ghost base0: nat, ghost size0: nat) returns (base: nat, size: nat)
      requires Describes(words, ptr, base0, size0)
      ensures base == base0 && size == size0
    {
      base, size := ptr - words[ptr - 16], words[ptr - 8];
    }
  }

  // ---- the page allocator as block allocator ----

  ghost predicate IsPowerOfTwo(n: nat) {
    exists k: nat :: Pow2(k) == n
  }

  /** The position of the highest bit set. */
  function Fls(n: nat): (k: nat)
    requires n > 0
    ensures Pow2(k) <= n < Pow2(k + 1)
  {
    if n == 1 then 0 else Fls(n / 2) + 1
  }

  lemma {:induction false} Pow2Grows(j: nat, k: nat)
    requires j < k
    ensures 2 * Pow2(j) <= Pow2(k)
    decreases k
  {
    if j + 1 < k {
      Pow2Grows(j, k - 1);
    }
  }

  lemma PowerOfTwoIff(n: nat)
    requires n > 0
    ensures IsPowerOfTwo(n) <==> Pow2(Fls(n)) == n
  {
    assert Pow2(Fls(n) + 1) == 2 * Pow2(Fls(n));
    if k: nat :| Pow2(k) == n {
      if k < Fls(n) {
        Pow2Grows(k, Fls(n));
      } else if Fls(n) < k {
        Pow2Grows(Fls(n), k);
      }
    }
  }

  /** The order that page_memalign asks for: the smallest with at least n pages. */
  function OrderFor(n: nat): (order: nat)
    requires n > 0
    ensures n <= Pow2(order) && (order > 0 ==> Pow2(order) < 2 * n)
  {
    if Pow2(Fls(n)) == n then Fls(n) else Fls(n) + 1
  }

  function PagesOf(size: nat): nat {
    Align(size, 4096) / 4096
  }

  lemma PagesOfSome(size: nat)
    requires 0 < size && size + 4095 < WORD
    ensures PagesOf(size) > 0 && size <= 4096 * PagesOf(size) < size + 4096
  {
    assert Align(size, 4096) == 4096 * (Align(size, 4096) / 4096) by {
      RoundDownIsMultiple(size + 4095, 4096);
    }
  }

  /** A block of n pages, n a power of two, holds the size, and half of it would not. */
  ghost predicate LeastBlock(n: nat, size: nat) {
    IsPowerOfTwo(n) && size <= 4096 * n && (n == 1 || 2048 * n < size)
  }

  lemma OrderIsLeast(size: nat)
    requires 0 < size && size + 4095 < WORD
    ensures LeastBlock(Pow2(OrderFor(PagesOf(size))), size)
  {
    PagesOfSome(size);
    HalfIsLess(OrderFor(PagesOf(size)), PagesOf(size));
  }

  lemma HalfIsLess(order: nat, pages: nat)
    requires order > 0 ==> Pow2(order) < 2 * pages
    ensures Pow2(order) == 1 || (Pow2(order) % 2 == 0 && Pow2(order) <= 2 * pages - 2)
  {
  }

  /** page_memalign: the least naturally aligned block that holds the size, or 0. */
  method PageMemalign(s: Machine, size: nat) returns (r: Pfn, ghost at: nat)
    requires s.Valid() && size + 4095 < WORD
    modifies s
    ensures s.Valid()
    ensures size == 0 ==> r == 0
    ensures size > 0 ==> (r != 0 <==> FoundBy(old(s.free), Pow2(OrderFor(PagesOf(size))), |old(s.free)|))
    ensures r == 0 ==> s.free == old(s.free) && s.mem == old(s.mem)
    ensures r != 0 ==>
      var n := Pow2(OrderFor(PagesOf(size)));
      && IsRun(old(s.free), n, at) && r == old(s.free)[at] && s.free == Cut(old(s.free), at, n)
      && PagesOf(size) <= n && LeastBlock(n, size)
    ensures s.mem.Keys == old(s.mem.Keys)
  {
    at := 0;
    if size == 0 {
      return 0, at;
    }
    PagesOfSome(size);
    OrderIsLeast(size);
    r, at := AllocPages(s, OrderFor(PagesOf(size)));
  }

  /** The block that memalign asks for is a whole number of pages. */
  lemma BlockIsPages(alignment: nat, size: nat)
    requires NoOverflow(alignment, size, 4096)
    ensures
      var b := BlockSize(alignment, size, 4096);
      b % 4096 == 0 && 0 < b && b + 4095 < WORD && b == 4096 * PagesOf(b)
  {
    var b := BlockSize(alignment, size, 4096);
    RoundDownIsMultiple(Wrap(Needed(alignment, size)) + 4095, 4096);
    RoundDownIsMultiple(b + 4095, 4096);
  }

  lemma PageAligned(p: nat)
    ensures 4096 * p % 8 == 0
  {
    assert 4096 * p == 8 * (512 * p);
  }

  lemma InPages(base: nat, block: nat, n: nat, mem: nat, size: nat)
    requires FitsIn(base, block, mem, size) && block <= 4096 * n
    ensures base <= mem - METADATA_EXTRA && mem + size <= base + 4096 * n
  {
  }

  /** memalign on the page allocator: the caller's memory and the two words below it lie inside the pages that were
      taken off the free list. */
  method MemalignPages(heap: Heap, s: Machine, alignment: nat, size: nat)
    returns (ok: bool, ptr: nat, ghost r: Pfn, ghost n: nat, ghost at: nat)
    requires s.Valid() && alignment <= 0x8000_0000_0000_0000 && size < WORD && NoOverflow(alignment, size, 4096)
    modifies heap, s
    ensures s.Valid() && s.mem.Keys == old(s.mem.Keys) && n == Pow2(OrderFor(PagesOf(BlockSize(alignment, size, 4096))))
    ensures ok <==> FoundBy(old(s.free), n, |old(s.free)|)
    ensures !ok ==> s.free == old(s.free) && s.mem == old(s.mem) && heap.words == old(heap.words)
    ensures ok ==>
      && IsRun(old(s.free), n, at) && r == old(s.free)[at] && s.free == Cut(old(s.free), at, n)
      && ptr % Alignment(alignment) == 0 && 4096 * r <= ptr - METADATA_EXTRA && ptr + size <= 4096 * (r + n)
      && Describes(heap.words, ptr, 4096 * r, BlockSize(alignment, size, 4096))
      && (n == 1 || 2048 * n < size + 4112 + (if alignment <= 8 then 0 else alignment - 1))
  {
    hide IsRun, FoundBy, Cut, NoOverflow, PagesOf, OrderFor, BlockSize, Describes, Alignment;
    BlockIsPages(alignment, size);
    var block := BlockSize(alignment, size, 4096);
    PagesOfSome(block);
    n := Pow2(OrderFor(PagesOf(block)));
    var p: nat;
    p, at := PageMemalign(s, block);
    ok, ptr, r := p != 0, 0, p;
    if ok {
      PageAligned(p);
      ptr := heap.Memalign(alignment, size, 4096, 4096 * p);
      InPages(4096 * p, block, n, ptr, size);
    }
  }

  /** free, with the page allocator behind it: the pages asked for go back, in front of the free list. */
  method FreeToPages(heap: Heap, s: Machine, ptr: nat, ghost r: Pfn, ghost size: nat)
    requires s.Valid() && Describes(heap.words, ptr, 4096 * r, size) && size % 4096 == 0 && size > 0
    requires r != 0 && r + size / 4096 <= FRAMES && forall g :: r <= g < r + size / 4096 ==> g in s.mem && g !in s.free
    modifies s
    ensures s.Valid() && s.free == Consecutive(r, size / 4096) + old(s.free)
    ensures s.mem.Keys == old(s.mem.Keys)
  {
    var base, length := heap.Free(ptr, 4096 * r, size);
    assert base / 4096 == r;
    FreePages(s, base / 4096, length / 4096);
  }

  /** The list after a block of count pages was taken at index at and pages of them were given back. */
  function AfterReturn(free: seq<Pfn>, at: nat, count: nat, pages: nat): seq<Pfn>
    requires at + count <= |free| && count > 0 && free[at] + pages <= FRAMES
  {
    Consecutive(free[at], pages) + Cut(free, at, count)
  }

  /** Taking a block and giving back the pages asked for restores the set of free pages exactly when the
      number of pages is a power of two: the rest of a larger block is lost. */
  lemma ReturnConservesIff(free: seq<Pfn>, at: nat, pages: nat)
    requires pages > 0 && IsRun(free, Pow2(OrderFor(pages)), at) && free[at] + pages <= FRAMES
    ensures multiset(AfterReturn(free, at, Pow2(OrderFor(pages)), pages)) == multiset(free) <==> IsPowerOfTwo(pages)
  {
    OrderExactIff(pages);
    var count := Pow2(OrderFor(pages));
    if count == pages {
      RunIsConsecutive(free, at, pages);
      CutAndReturn(free, at, pages);
    } else {
      assert |multiset(AfterReturn(free, at, count, pages))| < |multiset(free)|;
    }
  }

  lemma OrderExactIff(n: nat)
    requires n > 0
    ensures Pow2(OrderFor(n)) == n <==> IsPowerOfTwo(n)
  {
    PowerOfTwoIff(n);
  }

  lemma RunIsConsecutive(free: seq<Pfn>, at: nat, n: nat)
    requires n > 0 && IsRun(free, n, at) && free[at] + n <= FRAMES
    ensures Consecutive(free[at], n) == free[at..at + n]
  {
    var run := Consecutive(free[at], n);
    forall i | 0 <= i < n ensures run[i] == free[at..at + n][i] {
      assert IsAt(free[at + i], free[at], i);
    }
  }

  lemma CutAndReturn(free: seq<Pfn>, at: nat, n: nat)
    requires at + n <= |free|
    ensures multiset(free[at..at + n] + Cut(free, at, n)) == multiset(free)
  {
    assert free == free[..at] + free[at..at + n] + free[at + n..];
  }
}
