/** The virtual-memory allocator: blocks of virtually contiguous pages, each backed by a page of its own. */
module Vmalloc {
  import opened Arithmetic
  import opened PhysMem
  import opened Radix
  import opened PageAllocator
  import opened TableInstall
  import opened HostPaging

  const SPACE: nat := 0x1_0000_0000_0000
  const WORD: nat := 0x1_0000_0000_0000_0000

  /** Who holds a page. A page has one owner only. */
  datatype Owner = Free | Table | Backing(block: nat, index: nat) | Direct

  type Blocks = map<nat, seq<Pfn>>

  // ---- ownership ----

  ghost predicate BackedBy(owner: map<Pfn, Owner>, blocks: Blocks, a: nat, i: nat)
    requires a in blocks && i < |blocks[a]|
  {
    blocks[a][i] in owner && owner[blocks[a][i]] == Backing(a, i)
  }

  ghost predicate Holds(owner: map<Pfn, Owner>, p: Pfn, free: seq<Pfn>, places: Places, blocks: Blocks, direct: set<Pfn>)
    requires p in owner
  {
    match owner[p]
    case Free => p in free
    case Table => p in places
    case Backing(a, i) => a in blocks && i < |blocks[a]| && blocks[a][i] == p
    case Direct => p in direct
  }

  /** The owner recorded for each page is its owner in the allocator's state, and the other way around. */
  ghost predicate Accounted(owner: map<Pfn, Owner>, free: seq<Pfn>, places: Places, blocks: Blocks, direct: set<Pfn>) {
    && 0 !in owner
    && (forall p :: p in free ==> p in owner && owner[p] == Free)
    && (forall p :: p in places ==> p in owner && owner[p] == Table)
    && (forall p :: p in direct ==> p in owner && owner[p] == Direct)
    && (forall a: nat, i: nat :: a in blocks && i < |blocks[a]| ==> BackedBy(owner, blocks, a, i))
    && (forall p :: p in owner ==> Holds(owner, p, free, places, blocks, direct))
  }

  // ---- addresses ----

  /** The upper end of the free part of the area: the low 48 bits of the address, where 0 stands for the
      end of the address space. */
  function Low(v: nat): (t: nat)
    ensures 0 < t <= SPACE
  {
    if v % SPACE == 0 then SPACE else v % SPACE
  }

  lemma LowAfter(v: nat, d: nat)
    requires v < WORD && d < Low(v)
    ensures Low((v - d) % WORD) == Low(v) - d
  {
    var q := v / SPACE;
    assert v == SPACE * q + v % SPACE;
    if v % SPACE == 0 && d > 0 {
      if q == 0 {
        assert (v - d) % WORD == WORD - d;
        assert WORD - d == SPACE * 0xFFFF + (SPACE - d);
        assert (WORD - d) % SPACE == SPACE - d;
      } else {
        assert v - d == SPACE * (q - 1) + (SPACE - d);
        assert (v - d) % SPACE == SPACE - d;
      }
    } else {
      assert v - d == SPACE * q + (v % SPACE - d);
      assert (v - d) % SPACE == v % SPACE - d;
    }
  }

  // ---- blocks and their mapping ----

  /** What the tables on the way to address a let through. */
  ghost function RightsAbove(m: Memory, root: Pfn, a: nat): Rights {
    Granted(HOST, m, root, 4, a, 1, ALL_RIGHTS)
  }

  /** The page at address a is translated, by a 4 KiB entry, to page p, with all the rights that the tables above let
      through, and cached as usual. */
  ghost predicate PageMapped(m: Memory, root: Pfn, a: nat, p: Pfn) {
    && OpenPath(HOST, HOST_LINKS, m, root, 4, a, 1)
    && Translate(HOST, m, root, a) == Mapped(p * 4096, RightsAbove(m, root, a), Attributes(0, 0))
  }

  /** In the area above floor the tables let through what they did. */
  ghost predicate SameRightsAbove(m: Memory, m': Memory, root: Pfn, floor: nat) {
    forall a: nat :: floor <= a < SPACE ==> RightsAbove(m', root, a) == RightsAbove(m, root, a)
  }

  lemma SameRightsTwice(m0: Memory, m1: Memory, m2: Memory, root: Pfn, floor: nat)
    requires SameRightsAbove(m0, m1, root, floor) && SameRightsAbove(m1, m2, root, floor)
    ensures SameRightsAbove(m0, m2, root, floor)
  {
    hide RightsAbove;
    forall a: nat | floor <= a < SPACE ensures RightsAbove(m2, root, a) == RightsAbove(m0, root, a) {
      assert RightsAbove(m1, root, a) == RightsAbove(m0, root, a);
    }
  }

  ghost predicate BlockMapped(m: Memory, root: Pfn, blocks: Blocks, a: nat, i: nat)
    requires a in blocks && i < |blocks[a]|
  {
    PageMapped(m, root, a + 4096 * i, blocks[a][i])
  }

  ghost predicate BlocksMapped(m: Memory, root: Pfn, blocks: Blocks) {
    forall a: nat, i: nat :: a in blocks && i < |blocks[a]| ==> BlockMapped(m, root, blocks, a, i)
  }

  ghost predicate InArea(top: nat, blocks: Blocks, a: nat)
    requires a in blocks
  {
    a % 4096 == 0 && top <= a && a + 4096 * |blocks[a]| <= SPACE
  }

  ghost predicate Apart(blocks: Blocks, a: nat, b: nat)
    requires a in blocks && b in blocks
  {
    a + 4096 * |blocks[a]| <= b || b + 4096 * |blocks[b]| <= a
  }

  ghost predicate BlocksPlaced(top: nat, blocks: Blocks) {
    && (forall a: nat :: a in blocks ==> InArea(top, blocks, a))
    && (forall a: nat, b: nat :: a in blocks && b in blocks && a != b ==> Apart(blocks, a, b))
  }

  /** No large page is mapped in the area above floor. */
  ghost predicate AreaOpen(m: Memory, root: Pfn, floor: nat) {
    forall a: nat :: floor <= a < SPACE ==> OpenPath(HOST, HOST_LINKS, m, root, 4, a, 1)
  }

  ghost predicate Sound(m: Memory, root: Pfn, free: seq<Pfn>, places: Places, blocks: Blocks, direct: set<Pfn>,
                        owner: map<Pfn, Owner>, top: nat, floor: nat) {
    && Tree(HOST, m, places, root)
    && Accounted(owner, free, places, blocks, direct)
    && (forall p :: p in owner ==> p in m)
    && top % 4096 == 0 && 0 < floor <= top
    && AreaOpen(m, root, floor)
    && BlocksPlaced(top, blocks)
    && BlocksMapped(m, root, blocks)
  }

  // ---- what the steps do to ownership ----

  /** Pages that have become tables belong to the page tables. */
  ghost function WithTables(owner: map<Pfn, Owner>, places: Places): (r: map<Pfn, Owner>)
    ensures r.Keys == owner.Keys
  {
    map q | q in owner :: if q in places then Table else owner[q]
  }

  /** The tables grew from places to places' on pages that left the list free. */
  ghost predicate TablesTaken(free: seq<Pfn>, places: Places, free': seq<Pfn>, places': Places) {
    && (forall t :: t in places ==> t in places')
    && (forall t :: t in places' && t !in places ==> t in free)
    && (forall t :: t in free' ==> t in free && t !in places')
    && (forall t :: t in free && t !in free' ==> t in places')
  }

  lemma GrownTakesTables(m: Memory, free: seq<Pfn>, places: Places, m': Memory, free': seq<Pfn>, places': Places, n: nat)
    requires Grown(m, free, places, m', free', places', 0, n) && Separate(m', free', places', 0)
    ensures TablesTaken(free, places, free', places')
  {
  }

  /** The first free page becomes the next page of block a. */
  lemma AccountNewBacking(owner: map<Pfn, Owner>, free: seq<Pfn>, places: Places, blocks: Blocks, direct: set<Pfn>, a: nat)
    requires Accounted(owner, free, places, blocks, direct) && NoDuplicates(free) && free != []
    requires a in blocks
    ensures Accounted(owner[free[0] := Backing(a, |blocks[a]|)], free[1..], places, blocks[a := blocks[a] + [free[0]]], direct)
  {
    var p := free[0];
    var owner' := owner[p := Backing(a, |blocks[a]|)];
    var blocks' := blocks[a := blocks[a] + [p]];
    assert p !in free[1..];
    assert forall t :: t in free ==> t == p || t in free[1..];
    forall b: nat, i: nat | b in blocks' && i < |blocks'[b]| ensures BackedBy(owner', blocks', b, i) {
      if b != a || i < |blocks[a]| {
        assert BackedBy(owner, blocks, b, i);
      }
    }
    forall q | q in owner' ensures Holds(owner', q, free[1..], places, blocks', direct) {
      if q != p {
        assert Holds(owner, q, free, places, blocks, direct);
      }
    }
  }

  lemma AccountTables(owner: map<Pfn, Owner>, free: seq<Pfn>, places: Places, blocks: Blocks, direct: set<Pfn>,
                      free': seq<Pfn>, places': Places)
    requires Accounted(owner, free, places, blocks, direct)
    requires TablesTaken(free, places, free', places')
    ensures Accounted(WithTables(owner, places'), free', places', blocks, direct)
  {
    var owner' := WithTables(owner, places');
    forall b: nat, i: nat | b in blocks && i < |blocks[b]| ensures BackedBy(owner', blocks, b, i) {
      assert BackedBy(owner, blocks, b, i);
    }
    forall q | q in owner' ensures Holds(owner', q, free', places', blocks, direct) {
      assert Holds(owner, q, free, places, blocks, direct);
    }
  }

  lemma AccountEmptyBlock(owner: map<Pfn, Owner>, free: seq<Pfn>, places: Places, blocks: Blocks, direct: set<Pfn>, a: nat)
    requires Accounted(owner, free, places, blocks, direct) && a !in blocks
    ensures Accounted(owner, free, places, blocks[a := []], direct)
  {
    var blocks' := blocks[a := []];
    forall b: nat, i: nat | b in blocks' && i < |blocks'[b]| ensures BackedBy(owner, blocks', b, i) {
      assert BackedBy(owner, blocks, b, i);
    }
    forall q | q in owner ensures Holds(owner, q, free, places, blocks', direct) {
      assert Holds(owner, q, free, places, blocks, direct);
    }
  }

  /** The pages of block a become free again. */
  ghost function Released(owner: map<Pfn, Owner>, block: seq<Pfn>): (r: map<Pfn, Owner>)
    ensures r.Keys == owner.Keys
  {
    map q | q in owner :: if q in block then Free else owner[q]
  }

  function Reversed(s: seq<Pfn>): (r: seq<Pfn>)
    ensures forall p :: p in r <==> p in s
  {
    if s == [] then [] else Reversed(s[1..]) + [s[0]]
  }

  lemma {:induction false} ReversedSnoc(s: seq<Pfn>, p: Pfn)
    ensures Reversed(s + [p]) == [p] + Reversed(s)
  {
    if s == [] {
      assert Reversed([p]) == [p];
    } else {
      ReversedSnoc(s[1..], p);
      assert (s + [p])[1..] == s[1..] + [p];
    }
  }

  lemma AccountReleased(owner: map<Pfn, Owner>, free: seq<Pfn>, places: Places, blocks: Blocks, direct: set<Pfn>, a: nat)
    requires Accounted(owner, free, places, blocks, direct) && a in blocks
    ensures Accounted(Released(owner, blocks[a]), Reversed(blocks[a]) + free, places, blocks - {a}, direct)
  {
    var owner' := Released(owner, blocks[a]);
    var blocks' := blocks - {a};
    forall p | p in blocks[a] ensures p in owner && owner[p].Backing? && owner[p].block == a {
      var i :| 0 <= i < |blocks[a]| && blocks[a][i] == p;
      assert BackedBy(owner, blocks, a, i);
    }
    forall b: nat, i: nat | b in blocks' && i < |blocks'[b]| ensures BackedBy(owner', blocks', b, i) {
      assert BackedBy(owner, blocks, b, i);
    }
    forall q | q in owner' ensures Holds(owner', q, Reversed(blocks[a]) + free, places, blocks', direct) {
      assert Holds(owner, q, free, places, blocks, direct);
    }
  }

  lemma AccountDirect(owner: map<Pfn, Owner>, free: seq<Pfn>, places: Places, blocks: Blocks, direct: set<Pfn>)
    requires Accounted(owner, free, places, blocks, direct) && free != [] && NoDuplicates(free)
    ensures Accounted(owner[free[0] := Direct], free[1..], places, blocks, direct + {free[0]})
  {
    var p := free[0];
    var owner' := owner[p := Direct];
    assert forall t :: t in free ==> t == p || t in free[1..];
    forall b: nat, i: nat | b in blocks && i < |blocks[b]| ensures BackedBy(owner', blocks, b, i) {
      assert BackedBy(owner, blocks, b, i);
    }
    forall q | q in owner' ensures Holds(owner', q, free[1..], places, blocks, direct + {p}) {
      assert q in owner && Holds(owner, q, free, places, blocks, direct);
    }
  }

  /** Pages handed out together. */
  ghost function HandedOut(owner: map<Pfn, Owner>, taken: set<Pfn>): (r: map<Pfn, Owner>)
    ensures r.Keys == owner.Keys
  {
    map q | q in owner :: if q in taken then Direct else owner[q]
  }

  lemma AccountTaken(owner: map<Pfn, Owner>, free: seq<Pfn>, places: Places, blocks: Blocks, direct: set<Pfn>,
                     free': seq<Pfn>, taken: set<Pfn>)
    requires Accounted(owner, free, places, blocks, direct)
    requires forall p :: p in taken ==> p in free
    requires forall p :: p in free' <==> p in free && p !in taken
    ensures Accounted(HandedOut(owner, taken), free', places, blocks, direct + taken)
  {
    var owner' := HandedOut(owner, taken);
    forall b: nat, i: nat | b in blocks && i < |blocks[b]| ensures BackedBy(owner', blocks, b, i) {
      assert BackedBy(owner, blocks, b, i);
    }
    forall q | q in owner' ensures Holds(owner', q, free', places, blocks, direct + taken) {
      assert Holds(owner, q, free, places, blocks, direct);
    }
  }

  lemma AccountGiven(owner: map<Pfn, Owner>, free: seq<Pfn>, places: Places, blocks: Blocks, direct: set<Pfn>,
                     pages: seq<Pfn>, given: set<Pfn>)
    requires Accounted(owner, free, places, blocks, direct)
    requires given <= direct && forall p :: p in pages <==> p in given
    ensures Accounted(Released(owner, pages), pages + free, places, blocks, direct - given)
  {
    var owner' := Released(owner, pages);
    forall b: nat, i: nat | b in blocks && i < |blocks[b]| ensures BackedBy(owner', blocks, b, i) {
      assert BackedBy(owner, blocks, b, i);
    }
    forall q | q in owner' ensures Holds(owner', q, pages + free, places, blocks, direct - given) {
      assert Holds(owner, q, free, places, blocks, direct);
    }
  }

  ghost function PagesIn(s: seq<Pfn>): (r: set<Pfn>)
    ensures forall p :: p in r <==> p in s
  {
    set p | p in s
  }

  /** The pages of a run, which leave the list. */
  lemma RunTaken(free: seq<Pfn>, n: nat, at: nat, taken: set<Pfn>)
    requires n > 0 && IsRun(free, n, at) && NoDuplicates(free) && taken == PagesIn(free[at..at + n])
    ensures free[at] % n == 0 && forall p :: p in taken ==> p in free
    ensures forall p :: p in Cut(free, at, n) <==> p in free && p !in taken
  {
    hide IsAt;
    assert free == free[..at] + free[at..at + n] + free[at + n..];
    forall p | p in Cut(free, at, n) ensures p !in taken {
      var i :| 0 <= i < |Cut(free, at, n)| && Cut(free, at, n)[i] == p;
      assert p == free[if i < at then i else i + n];
    }
  }

  lemma RunInList(free: seq<Pfn>, n: nat, at: nat)
    requires n > 0 && IsRun(free, n, at)
    ensures at + n <= |free|
  {
  }

  lemma DirectFacts(m: Memory, root: Pfn, free: seq<Pfn>, places: Places, blocks: Blocks, direct: set<Pfn>,
                    owner: map<Pfn, Owner>, top: nat, floor: nat)
    requires Sound(m, root, free, places, blocks, direct, owner, top, floor)
    ensures forall p :: p in direct ==> p != 0 && p in m && p !in free
  {
    hide BlocksMapped, BlocksPlaced, AreaOpen, Tree;
  }

  /** After a block of pages was handed out. */
  lemma TakenSound(m: Memory, m': Memory, root: Pfn, free: seq<Pfn>, free': seq<Pfn>, places: Places, blocks: Blocks,
                   direct: set<Pfn>, owner: map<Pfn, Owner>, top: nat, floor: nat, n: nat, at: nat)
    requires Sound(m, root, free, places, blocks, direct, owner, top, floor) && NoDuplicates(free)
    requires n > 0 && IsRun(free, n, at) && free' == Cut(free, at, n)
    requires m'.Keys == m.Keys && forall g :: g in m && g !in free' ==> m'[g] == m[g]
    ensures
      var taken := PagesIn(free[at..at + n]);
      Sound(m', root, free', places, blocks, direct + taken, HandedOut(owner, taken), top, floor)
  {
    hide Accounted, BlocksMapped, BlocksPlaced, AreaOpen, Tree, NoDuplicates, IsRun, Cut;
    RunInList(free, n, at);
    var taken := PagesIn(free[at..at + n]);
    RunTaken(free, n, at, taken);
    TablesApart(owner, free, places, blocks, direct);
    OutsideTables(m, m', root, places, blocks, top, floor);
    AccountTaken(owner, free, places, blocks, direct, free', taken);
  }

  /** After pages that were handed out have come back. */
  lemma GivenSound(m: Memory, m': Memory, root: Pfn, free: seq<Pfn>, places: Places, blocks: Blocks, direct: set<Pfn>,
                   owner: map<Pfn, Owner>, top: nat, floor: nat, pages: seq<Pfn>)
    requires Sound(m, root, free, places, blocks, direct, owner, top, floor)
    requires forall p :: p in pages ==> p in direct
    requires m'.Keys == m.Keys && forall g :: g in m && g !in pages ==> m'[g] == m[g]
    ensures Sound(m', root, pages + free, places, blocks, direct - PagesIn(pages), Released(owner, pages), top, floor)
  {
    hide Accounted, BlocksMapped, BlocksPlaced, AreaOpen, Tree;
    TablesApart(owner, free, places, blocks, direct);
    OutsideTables(m, m', root, places, blocks, top, floor);
    AccountGiven(owner, free, places, blocks, direct, pages, PagesIn(pages));
  }

  lemma TablesApart(owner: map<Pfn, Owner>, free: seq<Pfn>, places: Places, blocks: Blocks, direct: set<Pfn>)
    requires Accounted(owner, free, places, blocks, direct)
    ensures forall p :: p in places ==> p !in free && p !in direct
  {
  }

  // ---- the beginning ----

  lemma LowIsAligned(v: nat)
    requires v % 4096 == 0
    ensures Low(v) % 4096 == 0
  {
    var q := v / SPACE;
    assert v == SPACE * q + v % SPACE;
    assert v % SPACE == 4096 * (v / 4096 - 0x10_0000_0000 * q);
  }

  lemma FreeListFacts(m: Memory, head: Pfn, free: seq<Pfn>)
    requires Threaded(m, head, free)
    ensures forall p :: p in free ==> p != 0 && p in m
  {
    forall i: nat | i < |free| ensures free[i] != 0 && free[i] in m {
      assert LinkedAt(m, free, i, 0);
    }
  }

  lemma FirstOwners(m: Memory, free: seq<Pfn>, places: Places, owner: map<Pfn, Owner>)
    requires owner == map p: Pfn | p in Elements(free) + places.Keys :: if p in places then Table else Free
    requires 0 !in places && forall p :: p in free ==> p != 0 && p !in places
    ensures Accounted(owner, free, places, map[], {})
  {
  }

  lemma NoBlocks(m: Memory, root: Pfn, top: nat)
    ensures BlocksPlaced(top, map[]) && BlocksMapped(m, root, map[])
  {
  }

  ghost function BackingPages(blocks: Blocks): set<Pfn> {
    set a, p | a in blocks && p in blocks[a] :: p
  }

  /** Every page is free, a table, the backing of a live block or handed out, and only one of these. */
  lemma PagesArePartitioned(owner: map<Pfn, Owner>, free: seq<Pfn>, places: Places, blocks: Blocks, direct: set<Pfn>)
    requires Accounted(owner, free, places, blocks, direct)
    ensures owner.Keys == Elements(free) + places.Keys + BackingPages(blocks) + direct
    ensures Elements(free) !! places.Keys !! BackingPages(blocks) !! direct
  {
    forall a, p | a in blocks && p in blocks[a] ensures p in owner && owner[p].Backing? {
      var i :| 0 <= i < |blocks[a]| && blocks[a][i] == p;
      assert BackedBy(owner, blocks, a, i);
    }
    forall p | p in owner ensures p in Elements(free) + places.Keys + BackingPages(blocks) + direct {
      assert Holds(owner, p, free, places, blocks, direct);
      if owner[p].Backing? {
        assert p in blocks[owner[p].block];
      }
    }
  }

  // ---- what the steps do to the mapping ----

  function PageEntry(p: Pfn): Word {
    Word(0, p, PT_PRESENT_MASK | PT_WRITABLE_MASK | PT_USER_MASK)
  }

  lemma PageEntryMeaning(p: Pfn, a: nat, r: Rights)
    requires a % 4096 == 0
    ensures Resolve(PageEntry(p), 1, a, r) == Mapped(p * 4096, r, Attributes(0, 0))
  {
    assert PageEntry(p).lo == 7 && PageEntry(p).hi == 0;
    assert Meet(r, Grants(PageEntry(p))) == r;
  }

  lemma BlockPageStays(m: Memory, m': Memory, root: Pfn, c: nat, e: Word, a: nat, p: Pfn)
    requires Replaced(HOST, m, m', root, 1, c, e) && OpenAbove(HOST, HOST_LINKS, m, m', root, 1)
    requires PageMapped(m, root, a, p) && a < SPACE && a % 4096 == 0 && c % 4096 == 0 && a != c
    ensures PageMapped(m', root, a, p)
  {
    assert PathKept(HOST, HOST_LINKS, m, m', root, a, 1);
  }

  lemma NewPageMapped(m: Memory, m': Memory, root: Pfn, c: nat, p: Pfn)
    requires Replaced(HOST, m, m', root, 1, c, PageEntry(p)) && OpenAbove(HOST, HOST_LINKS, m, m', root, 1)
    requires OpenPath(HOST, HOST_LINKS, m, root, 4, c, 1) && c < SPACE && c % 4096 == 0
    ensures PageMapped(m', root, c, p)
  {
    PageEntryMeaning(p, c, RightsAbove(m, root, c));
    assert PathKept(HOST, HOST_LINKS, m, m', root, c, 1);
  }

  /** The page c is not one that a live block uses. */
  ghost predicate Unused(blocks: Blocks, c: nat) {
    c % 4096 == 0 && forall a: nat :: a in blocks ==> c < a || a + 4096 * |blocks[a]| <= c
  }

  lemma PageAddress(a: nat, i: nat)
    requires a % 4096 == 0
    ensures (a + 4096 * i) % 4096 == 0
  {
    assert a + 4096 * i == 4096 * (a / 4096 + i);
  }

  lemma InstallKeepsBlocks(m: Memory, m': Memory, root: Pfn, blocks: Blocks, top: nat, c: nat, e: Word)
    requires Replaced(HOST, m, m', root, 1, c, e) && OpenAbove(HOST, HOST_LINKS, m, m', root, 1)
    requires BlocksMapped(m, root, blocks) && BlocksPlaced(top, blocks) && Unused(blocks, c)
    ensures BlocksMapped(m', root, blocks)
  {
    forall a: nat, i: nat | a in blocks && i < |blocks[a]| ensures BlockMapped(m', root, blocks, a, i) {
      assert InArea(top, blocks, a) && BlockMapped(m, root, blocks, a, i);
      PageAddress(a, i);
      BlockPageStays(m, m', root, c, e, a + 4096 * i, blocks[a][i]);
    }
  }

  lemma OpenKeptInArea(m: Memory, m': Memory, root: Pfn, floor: nat)
    requires OpenAbove(HOST, HOST_LINKS, m, m', root, 1) && AreaOpen(m, root, floor)
    ensures AreaOpen(m', root, floor) && SameRightsAbove(m, m', root, floor)
  {
    forall a: nat | floor <= a < SPACE
      ensures OpenPath(HOST, HOST_LINKS, m', root, 4, a, 1) && RightsAbove(m', root, a) == RightsAbove(m, root, a)
    {
      assert PathKept(HOST, HOST_LINKS, m, m', root, a, 1);
    }
  }

  lemma BlockExtended(m: Memory, root: Pfn, blocks: Blocks, top: nat, a: nat, p: Pfn)
    requires BlocksMapped(m, root, blocks) && BlocksPlaced(top, blocks) && a in blocks
    requires PageMapped(m, root, a + 4096 * |blocks[a]|, p)
    requires a + 4096 * |blocks[a]| + 4096 <= SPACE
    requires forall b: nat :: b in blocks && b != a ==> b + 4096 * |blocks[b]| <= a || a + 4096 * |blocks[a]| + 4096 <= b
    ensures var blocks' := blocks[a := blocks[a] + [p]];
      BlocksMapped(m, root, blocks') && BlocksPlaced(top, blocks')
  {
    var blocks' := blocks[a := blocks[a] + [p]];
    forall b: nat, i: nat | b in blocks' && i < |blocks'[b]| ensures BlockMapped(m, root, blocks', b, i) {
      if b != a || i < |blocks[a]| {
        assert BlockMapped(m, root, blocks, b, i);
      }
    }
    forall b: nat | b in blocks' ensures InArea(top, blocks', b) {
      assert InArea(top, blocks, b);
    }
    forall b: nat, c: nat | b in blocks' && c in blocks' && b != c ensures Apart(blocks', b, c) {
      assert Apart(blocks, b, c);
    }
  }

  /** The page behind the last one of block a belongs to no other block. */
  ghost predicate EndIsFree(blocks: Blocks, a: nat)
    requires a in blocks
  {
    forall b: nat :: b in blocks && b != a ==>
      b + 4096 * |blocks[b]| <= a || a + 4096 * |blocks[a]| + 4096 <= b
  }

  lemma EndIsUnused(blocks: Blocks, top: nat, a: nat)
    requires a in blocks && EndIsFree(blocks, a) && BlocksPlaced(top, blocks)
    ensures Unused(blocks, a + 4096 * |blocks[a]|)
  {
    assert InArea(top, blocks, a);
    PageAddress(a, |blocks[a]|);
  }

  lemma MappingAfterBacking(m: Memory, m': Memory, root: Pfn, blocks: Blocks, top: nat, floor: nat, a: nat, c: nat, p: Pfn)
    requires Replaced(HOST, m, m', root, 1, c, PageEntry(p)) && OpenAbove(HOST, HOST_LINKS, m, m', root, 1)
    requires AreaOpen(m, root, floor) && BlocksMapped(m, root, blocks) && BlocksPlaced(top, blocks)
    requires a in blocks && c == a + 4096 * |blocks[a]| && floor <= c && c + 4096 <= SPACE
    requires EndIsFree(blocks, a) && Unused(blocks, c)
    ensures var blocks' := blocks[a := blocks[a] + [p]];
      AreaOpen(m', root, floor) && BlocksMapped(m', root, blocks') && BlocksPlaced(top, blocks')
    ensures SameRightsAbove(m, m', root, floor)
  {
    hide Replaced, OpenAbove, RightsAbove, PageEntry, PageMapped, BlocksMapped, BlocksPlaced;
    OpenKeptInArea(m, m', root, floor);
    InstallKeepsBlocks(m, m', root, blocks, top, c, PageEntry(p));
    NewPageMapped(m, m', root, c, p);
    BlockExtended(m', root, blocks, top, a, p);
  }

  lemma ReadyToBack(m: Memory, root: Pfn, free: seq<Pfn>, places: Places, blocks: Blocks, direct: set<Pfn>,
                    owner: map<Pfn, Owner>, top: nat, floor: nat, c: nat)
    requires Sound(m, root, free, places, blocks, direct, owner, top, floor) && free != []
    requires floor <= c < SPACE
    ensures Separate(m, free[1..], places, 0) && Tree(HOST, m, places, root)
    ensures free[0] in owner
    ensures InRange(HOST, c) && OpenPath(HOST, HOST_LINKS, m, root, 4, c, 1)
  {
  }

  lemma AboutSound(m: Memory, root: Pfn, free: seq<Pfn>, places: Places, blocks: Blocks, direct: set<Pfn>,
                   owner: map<Pfn, Owner>, top: nat, floor: nat)
    requires Sound(m, root, free, places, blocks, direct, owner, top, floor)
    ensures Tree(HOST, m, places, root) && BlocksPlaced(top, blocks)
    ensures floor <= top
  {
  }

  lemma BackedHead(owner: map<Pfn, Owner>, free: seq<Pfn>, places: Places, blocks: Blocks, direct: set<Pfn>)
    requires Accounted(owner, free, places, blocks, direct)
    ensures free != [] ==> free[0] in owner && owner[free[0]] == Free
  {
  }

  lemma BackedAccounts(m: Memory, free: seq<Pfn>, places: Places, blocks: Blocks, direct: set<Pfn>, owner: map<Pfn, Owner>,
                       a: nat, m': Memory, free': seq<Pfn>, places': Places)
    requires Accounted(owner, free, places, blocks, direct) && NoDuplicates(free) && free != [] && a in blocks
    requires Separate(m', free', places', 0) && Grown(m, free[1..], places, m', free', places', 0, 3)
    ensures Accounted(WithTables(owner[free[0] := Backing(a, |blocks[a]|)], places'), free', places',
      blocks[a := blocks[a] + [free[0]]], direct)
  {
    hide Accounted;
    AccountNewBacking(owner, free, places, blocks, direct, a);
    GrownTakesTables(m, free[1..], places, m', free', places', 3);
    AccountTables(owner[free[0] := Backing(a, |blocks[a]|)], free[1..], places, blocks[a := blocks[a] + [free[0]]], direct,
      free', places');
  }

  lemma Backed(m: Memory, root: Pfn, free: seq<Pfn>, places: Places, blocks: Blocks, direct: set<Pfn>,
               owner: map<Pfn, Owner>, top: nat, floor: nat, a: nat, m': Memory, free': seq<Pfn>, places': Places)
    requires Sound(m, root, free, places, blocks, direct, owner, top, floor) && NoDuplicates(free) && free != []
    requires a in blocks && EndIsFree(blocks, a)
    requires floor <= a + 4096 * |blocks[a]| && a + 4096 * |blocks[a]| + 4096 <= SPACE
    requires Tree(HOST, m', places', root) && Separate(m', free', places', 0)
    requires Replaced(HOST, m, m', root, 1, a + 4096 * |blocks[a]|, PageEntry(free[0]))
    requires OpenAbove(HOST, HOST_LINKS, m, m', root, 1)
    requires Grown(m, free[1..], places, m', free', places', 0, 3)
    ensures Sound(m', root, free', places', blocks[a := blocks[a] + [free[0]]], direct,
      WithTables(owner[free[0] := Backing(a, |blocks[a]|)], places'), top, floor)
    ensures |free| - 4 <= |free'| < |free| && free' == free[|free| - |free'|..] && SameRightsAbove(m, m', root, floor)
  {
    hide SameRightsAbove, Accounted, BlocksMapped, BlocksPlaced, AreaOpen, Replaced;
    hide OpenAbove, Separate, Tree, EndIsFree, Unused, PageEntry;
    EndIsUnused(blocks, top, a);
    MappingAfterBacking(m, m', root, blocks, top, floor, a, a + 4096 * |blocks[a]|, free[0]);
    BackedAccounts(m, free, places, blocks, direct, owner, a, m', free', places');
    BackedHead(owner, free, places, blocks, direct);
  }

  /** Takes a page from the free list and maps it at address c, the end of block a. */
  method BackPage(s: Machine, root: Pfn, c: nat, ghost a: nat, ghost places: Places, ghost blocks: Blocks,
                  ghost direct: set<Pfn>, ghost owner: map<Pfn, Owner>, ghost top: nat, ghost floor: nat)
    returns (ok: bool, p: Pfn, ghost places': Places)
    requires s.Valid() && Sound(s.mem, root, s.free, places, blocks, direct, owner, top, floor)
    requires a in blocks && c == a + 4096 * |blocks[a]| && floor <= c && c + 4096 <= SPACE
    requires EndIsFree(blocks, a)
    modifies s
    ensures !ok ==> s.free == []
    ensures |old(s.free)| >= 4 ==> ok
    ensures ok ==> |s.free| >= |old(s.free)| - 4 && SameRightsAbove(old(s.mem), s.mem, root, floor)
    ensures ok ==>
      && s.Valid() && old(s.free) != [] && p == old(s.free)[0] && p in owner
      && Sound(s.mem, root, s.free, places', blocks[a := blocks[a] + [p]], direct,
           WithTables(owner[p := Backing(a, |blocks[a]|)], places'), top, floor)
      && |s.free| < |old(s.free)| && s.free == old(s.free)[|old(s.free)| - |s.free|..]
  {
    hide Sound, Separate, Grown, Replaced, OpenAbove, Tree, EndIsFree, Threaded, NoDuplicates, PageEntry, WithTables,
      SameRightsAbove;
    places' := places;
    ghost var free0 := s.free;
    FreeHead(s.mem, s.freelist, s.free);
    p := AllocPage(s);
    ok := p != 0;
    if !ok {
      return;
    }
    ReadyToBack(s.mem, root, free0, places, blocks, direct, owner, top, floor, c);
    var pt;
    ok, pt, places' := InstallPte(s, root, 1, c, PageEntry(p), 0, places);
    if ok {
      Backed(old(s.mem), root, free0, places, blocks, direct, owner, top, floor, a, s.mem, s.free, places');
    }
  }

  // ---- freeing ----

  lemma {:induction false} OpenFrom(m: Memory, t: Pfn, l: Level, a: nat, acc: Rights, u: Pfn, ul: Level, r: Rights)
    requires Reaches(HOST, m, t, l, a, acc, u, ul, r) && OpenPath(HOST, HOST_LINKS, m, t, l, a, 1)
    ensures OpenPath(HOST, HOST_LINKS, m, u, ul, a, 1)
    decreases l
  {
    if l != ul {
      var e := m[t][Index(a, l)];
      OpenFrom(m, e.frame, l - 1, a, Meet(acc, Grants(e)), u, ul, r);
    }
  }

  /** A mapped page of the area is found at level 1. */
  lemma FoundAtLevel1(m: Memory, root: Pfn, a: nat, p: Pfn, t: Pfn, l: Level)
    requires PageMapped(m, root, a, p) && SearchEnds(m, root, a, 1, t, Index(a, l), l)
    ensures l == 1
  {
    var r :| Reaches(HOST, m, root, 4, a, ALL_RIGHTS, t, l, r);
    OpenFrom(m, root, 4, a, ALL_RIGHTS, t, l, r);
    SearchTranslates(m, root, a, t, Index(a, l), l);
  }

  lemma OpenRootIsPlain(m: Memory, root: Pfn, a: nat)
    requires OpenPath(HOST, HOST_LINKS, m, root, 4, a, 1)
    ensures PlainRoot(m, root, a)
  {
  }

  /** The page behind address a, a mapped page of the area. */
  method BackingOf(s: Machine, root: Pfn, a: nat, ghost p: Pfn, ghost places: Places) returns (q: Pfn)
    requires Tree(HOST, s.mem, places, root) && PageMapped(s.mem, root, a, p)
    requires a < SPACE && a % 4096 == 0
    ensures q == p
  {
    OpenRootIsPlain(s.mem, root, a);
    var found, pa;
    ghost var t, l;
    found, pa, t, l := VirtToPtePhys(s, root, a, places);
    FoundAtLevel1(s.mem, root, a, p, t, l);
    assert Offset(a, 1) / 4096 == 0 == PageOffset(s.mem[t][Index(a, l)].frame, l);
    q := pa / 4096;
  }

  /** One turn of the loop of vm_free. The tables are as in m0. */
  method FreeBackingOf(s: Machine, root: Pfn, a: nat, ghost p: Pfn, ghost m0: Memory, ghost places: Places)
    requires s.Valid() && Tree(HOST, m0, places, root) && SameTables(m0, s.mem, places)
    requires PageMapped(m0, root, a, p) && a < SPACE && a % 4096 == 0
    requires p != 0 && p in s.mem && p !in s.free && p !in places
    modifies s
    ensures s.Valid() && s.free == [p] + old(s.free)
    ensures SameTables(m0, s.mem, places) && s.mem.Keys == old(s.mem.Keys)
  {
    hide Threaded;
    TreeSameTables(HOST, m0, s.mem, places, root);
    PageOutsideTables(m0, s.mem, root, places, a, p);
    var q := BackingOf(s, root, a, p, places);
    FreePage(s, q);
  }

  ghost predicate MappedFrom(m: Memory, root: Pfn, a: nat, block: seq<Pfn>, i: nat) {
    i < |block| && PageMapped(m, root, a + 4096 * i, block[i])
  }

  /** The low 48 bits of the address i pages after va. */
  lemma LaterAddress(va: nat, i: nat, a: nat)
    requires a == va % SPACE && a + 4096 * i < SPACE
    ensures (va + 4096 * i) % WORD % SPACE == a + 4096 * i
  {
    var q := va / SPACE;
    var w := q / 0x1_0000;
    assert va == SPACE * q + a;
    assert q == 0x1_0000 * w + q % 0x1_0000;
    assert va + 4096 * i == WORD * w + (SPACE * (q % 0x1_0000) + (a + 4096 * i));
    assert SPACE * (q % 0x1_0000) + (a + 4096 * i) < WORD;
    assert (va + 4096 * i) % WORD == SPACE * (q % 0x1_0000) + (a + 4096 * i);
    assert (SPACE * (q % 0x1_0000) + (a + 4096 * i)) % SPACE == a + 4096 * i;
  }

  /** The loop of vm_free: finds each page of the block by walking the tables, and frees it. The mapping
      stays. */
  method FreeBacking(s: Machine, root: Pfn, mem: nat, size: nat, ghost a: nat, ghost block: seq<Pfn>, ghost places: Places)
    requires s.Valid() && Tree(HOST, s.mem, places, root)
    requires mem < WORD && a == mem % SPACE && a % 4096 == 0
    requires size == 4096 * |block| && a + 4096 * |block| <= SPACE
    requires forall i: nat :: i < |block| ==> MappedFrom(s.mem, root, a, block, i)
    requires forall p :: p in block ==> p != 0 && p in s.mem && p !in s.free && p !in places
    requires NoDuplicates(block)
    modifies s
    ensures s.Valid()
    ensures s.free == Reversed(block) + old(s.free)
    ensures SameTables(old(s.mem), s.mem, places) && s.mem.Keys == old(s.mem.Keys)
  {
    hide Threaded, PageMapped, Tree, SameTables;
    SameTablesRefl(s.mem, places);
    var va, left := mem, size;
    ghost var i: nat := 0;
    assert block[..0] == [];
    while left != 0
      invariant i <= |block| && left == 4096 * (|block| - i) && va == (mem + 4096 * i) % WORD
      invariant s.Valid() && s.free == Reversed(block[..i]) + old(s.free)
      invariant SameTables(old(s.mem), s.mem, places) && s.mem.Keys == old(s.mem.Keys)
      decreases left
    {
      LaterAddress(mem, i, a);
      PageAddress(a, i);
      assert MappedFrom(old(s.mem), root, a, block, i);
      assert block[i] in block && block[i] !in block[..i];
      FreeBackingOf(s, root, va % SPACE, block[i], old(s.mem), places);
      ReversedSnoc(block[..i], block[i]);
      assert block[..i + 1] == block[..i] + [block[i]];
      NextAddress(mem, i);
      va := (va + 4096) % WORD;
      left := left - 4096;
      i := i + 1;
    }
    assert block[..i] == block;
  }

  lemma SameTablesRefl(m: Memory, places: Places)
    ensures SameTables(m, m, places)
  {
  }

  lemma NextAddress(mem: nat, i: nat)
    ensures ((mem + 4096 * i) % WORD + 4096) % WORD == (mem + 4096 * (i + 1)) % WORD
  {
    var x := mem + 4096 * i;
    assert x == WORD * (x / WORD) + x % WORD;
  }

  /** The number of pages of a block: the size rounded up in 64 bits, the count cut to 32 bits. */
  function PageCount(size: nat): nat {
    (size + 4095) % WORD / 4096 % 0x1_0000_0000
  }

  lemma PageCountBounds(size: nat)
    ensures size + 4095 < 0x1000_0000_0000 ==> size <= 4096 * PageCount(size) < size + 4096
    ensures size == 0 ==> PageCount(size) == 0
  {
  }

  /** The page at address a is translated to page p, with the rights that the tables let through before, as data that
      is cached as usual. */
  ghost predicate TranslatedTo(m0: Memory, m: Memory, root: Pfn, a: nat, p: Pfn) {
    Translate(HOST, m, root, a) == Mapped(p * 4096, RightsAbove(m0, root, a), Attributes(0, 0))
  }

  lemma BlockTranslated(m0: Memory, m: Memory, root: Pfn, free: seq<Pfn>, places: Places, blocks: Blocks, direct: set<Pfn>,
                        owner: map<Pfn, Owner>, top: nat, floor: nat, a: nat)
    requires Sound(m, root, free, places, blocks, direct, owner, top, floor) && a in blocks && floor <= a
    requires SameRightsAbove(m0, m, root, floor)
    ensures forall i: nat :: i < |blocks[a]| ==> TranslatedTo(m0, m, root, a + 4096 * i, blocks[a][i])
  {
    hide RightsAbove, Accounted, Tree, AreaOpen;
    assert InArea(top, blocks, a);
    forall i: nat | i < |blocks[a]| ensures TranslatedTo(m0, m, root, a + 4096 * i, blocks[a][i]) {
      assert BlockMapped(m, root, blocks, a, i);
      assert RightsAbove(m, root, a + 4096 * i) == RightsAbove(m0, root, a + 4096 * i);
    }
  }

  lemma SameRightsRefl(m: Memory, root: Pfn, floor: nat)
    ensures SameRightsAbove(m, m, root, floor)
  {
  }

  lemma AreaShrinks(blocks: Blocks, top: nat, top': nat, nr: nat)
    requires BlocksPlaced(top, blocks) && top % 4096 == 0 && top' == top - 4096 * nr
    ensures BlocksPlaced(top', blocks) && top' % 4096 == 0
  {
    assert top' == 4096 * (top / 4096 - nr);
    forall a: nat | a in blocks ensures InArea(top', blocks, a) {
      assert InArea(top, blocks, a);
    }
  }

  /** The pages pages from address a on belong to no block but a. */
  ghost predicate RoomFor(blocks: Blocks, a: nat, pages: nat) {
    && a + 4096 * pages <= SPACE
    && forall b: nat :: b in blocks && b != a ==> a + 4096 * pages <= b
  }

  lemma RoomForNext(blocks: Blocks, a: nat, pages: nat)
    requires a in blocks && RoomFor(blocks, a, pages) && |blocks[a]| < pages
    ensures EndIsFree(blocks, a) && a + 4096 * |blocks[a]| + 4096 <= SPACE
  {
    assert 4096 * |blocks[a]| + 4096 <= 4096 * pages;
  }

  lemma RoomStays(blocks: Blocks, blocks': Blocks, a: nat, pages: nat)
    requires RoomFor(blocks, a, pages) && a in blocks && a in blocks' && blocks' == blocks[a := blocks'[a]]
    ensures RoomFor(blocks', a, pages)
  {
  }

  /** A new, empty block at the lower end of the area. */
  lemma OpenBlock(m: Memory, root: Pfn, free: seq<Pfn>, places: Places, blocks: Blocks, direct: set<Pfn>,
                  owner: map<Pfn, Owner>, a: nat, floor: nat, top: nat, pages: nat)
    requires Sound(m, root, free, places, blocks, direct, owner, a, floor)
    requires BlocksPlaced(top, blocks) && pages > 0 && a == top - 4096 * pages && top <= SPACE
    ensures a !in blocks && floor <= a
    ensures Sound(m, root, free, places, blocks[a := []], direct, owner, a, floor)
    ensures RoomFor(blocks[a := []], a, pages)
  {
    forall b: nat | b in blocks ensures InArea(top, blocks, b) {
    }
    AccountEmptyBlock(owner, free, places, blocks, direct, a);
    var blocks' := blocks[a := []];
    forall b: nat, i: nat | b in blocks' && i < |blocks'[b]| ensures BlockMapped(m, root, blocks', b, i) {
      assert BlockMapped(m, root, blocks, b, i);
    }
    forall b: nat | b in blocks' ensures InArea(a, blocks', b) {
      assert b != a ==> InArea(a, blocks, b);
    }
    forall b: nat, c: nat | b in blocks' && c in blocks' && b != c ensures Apart(blocks', b, c) {
      if b != a && c != a {
        assert Apart(blocks, b, c);
      }
    }
  }

  lemma BlockFacts(m: Memory, root: Pfn, free: seq<Pfn>, places: Places, blocks: Blocks, direct: set<Pfn>,
                   owner: map<Pfn, Owner>, top: nat, floor: nat, a: nat)
    requires Sound(m, root, free, places, blocks, direct, owner, top, floor) && a in blocks
    ensures a % 4096 == 0 && a + 4096 * |blocks[a]| <= SPACE
    ensures forall i: nat :: i < |blocks[a]| ==> MappedFrom(m, root, a, blocks[a], i)
    ensures forall p :: p in blocks[a] ==> p != 0 && p in m && p !in free && p !in places
    ensures NoDuplicates(blocks[a])
  {
    assert InArea(top, blocks, a);
    forall i: nat | i < |blocks[a]|
      ensures MappedFrom(m, root, a, blocks[a], i)
      ensures blocks[a][i] in owner && owner[blocks[a][i]] == Backing(a, i)
    {
      assert BlockMapped(m, root, blocks, a, i) && BackedBy(owner, blocks, a, i);
    }
  }

  lemma BlockRemoved(m: Memory, root: Pfn, blocks: Blocks, top: nat, a: nat)
    requires BlocksMapped(m, root, blocks) && BlocksPlaced(top, blocks)
    ensures BlocksMapped(m, root, blocks - {a}) && BlocksPlaced(top, blocks - {a})
  {
    var blocks' := blocks - {a};
    forall b: nat, i: nat | b in blocks' && i < |blocks'[b]| ensures BlockMapped(m, root, blocks', b, i) {
      assert BlockMapped(m, root, blocks, b, i);
    }
    forall b: nat | b in blocks' ensures InArea(top, blocks', b) {
      assert InArea(top, blocks, b);
    }
    forall b: nat, c: nat | b in blocks' && c in blocks' && b != c ensures Apart(blocks', b, c) {
      assert Apart(blocks, b, c);
    }
  }

  /** Between calls: the allocator's globals, the machine below it, and who owns what. */
  class VirtualMemory {
    const s: Machine
    var pageRoot: Pfn
    var vfreeTop: nat
    ghost var floor: nat
    ghost var places: Places
    ghost var blocks: Blocks
    ghost var direct: set<Pfn>
    ghost var owner: map<Pfn, Owner>

    ghost predicate Valid()
      reads this, s
    {
      && s.Valid()
      && vfreeTop < WORD
      && Sound(s.mem, pageRoot, s.free, places, blocks, direct, owner, Low(vfreeTop), floor)
    }

    constructor (s: Machine, pageRoot: Pfn, vfreeTop: nat, ghost floor: nat, ghost places: Places)
      requires s.Valid() && Tree(HOST, s.mem, places, pageRoot) && Separate(s.mem, s.free, places, 0)
      requires vfreeTop < WORD && vfreeTop % 4096 == 0 && 0 < floor <= Low(vfreeTop)
      requires 0 !in places && forall p :: p in places ==> p in s.mem
      requires AreaOpen(s.mem, pageRoot, floor)
      ensures Valid() && this.s == s && blocks == map[] && direct == {} && this.places == places
    {
      this.s := s;
      this.pageRoot := pageRoot;
      this.vfreeTop := vfreeTop;
      this.floor := floor;
      this.places := places;
      blocks := map[];
      direct := {};
      owner := map p: Pfn | p in Elements(s.free) + places.Keys :: if p in places then Table else Free;
      new;
      hide Accounted, AreaOpen, BlocksPlaced, BlocksMapped, Tree, Threaded, NoDuplicates, Low;
      LowIsAligned(vfreeTop);
      FreeListFacts(s.mem, s.freelist, s.free);
      FirstOwners(s.mem, s.free, places, owner);
      NoBlocks(s.mem, pageRoot, Low(vfreeTop));
    }

    /** Takes one page for the caller. */
    method AllocDirect() returns (p: Pfn)
      requires Valid()
      modifies this, s
      ensures Valid()
      ensures p == 0 <==> old(s.free) == []
      ensures p == 0 ==> direct == old(direct)
      ensures p != 0 ==> p in old(owner) && old(owner)[p] == Free && direct == old(direct) + {p}
      ensures owner.Keys == old(owner.Keys) && blocks == old(blocks) && places == old(places)
    {
      hide Accounted, BlocksMapped, BlocksPlaced, AreaOpen, Tree, Threaded, NoDuplicates, Low;
      FreeHead(s.mem, s.freelist, s.free);
      BackedHead(owner, s.free, places, blocks, direct);
      p := AllocPage(s);
      if p != 0 {
        AccountDirect(owner, old(s.free), places, blocks, direct);
        owner := owner[p := Direct];
        direct := direct + {p};
      }
    }

    method FreeDirect(p: Pfn)
      requires Valid() && p in direct
      modifies this, s
      ensures Valid()
      ensures s.free == [p] + old(s.free) && direct == old(direct) - {p}
      ensures owner.Keys == old(owner.Keys) && blocks == old(blocks) && places == old(places)
    {
      hide Sound, Threaded, Low;
      DirectFacts(s.mem, pageRoot, s.free, places, blocks, direct, owner, Low(vfreeTop), floor);
      FreePage(s, p);
      GivenSound(old(s.mem), s.mem, pageRoot, old(s.free), places, blocks, direct, owner, Low(vfreeTop), floor, [p]);
      owner := Released(owner, [p]);
      assert PagesIn([p]) == {p};
      direct := direct - {p};
    }

    /** Takes 2^order consecutive, naturally aligned pages for the caller. */
    method AllocDirectPages(order: nat) returns (r: Pfn, ghost at: nat)
      requires Valid()
      modifies this, s
      ensures Valid()
      ensures r != 0 <==> FoundBy(old(s.free), Pow2(order), |old(s.free)|)
      ensures r == 0 ==> s.free == old(s.free) && direct == old(direct)
      ensures r != 0 ==>
        && IsRun(old(s.free), Pow2(order), at) && r == old(s.free)[at] && s.free == Cut(old(s.free), at, Pow2(order))
        && direct == old(direct) + PagesIn(old(s.free)[at..at + Pow2(order)])
      ensures owner.Keys == old(owner.Keys) && blocks == old(blocks) && places == old(places)
      ensures vfreeTop == old(vfreeTop) && floor == old(floor) && pageRoot == old(pageRoot)
    {
      hide Sound, Threaded, Low, IsRun, FoundBy, Cut;
      ghost var m, free, n := s.mem, s.free, Pow2(order);
      FreeHead(s.mem, s.freelist, s.free);
      r, at := AllocPages(s, order);
      if r != 0 {
        RunInList(free, n, at);
        TakenSound(m, s.mem, pageRoot, free, s.free, places, blocks, direct, owner, Low(vfreeTop), floor, n, at);
        owner := HandedOut(owner, PagesIn(free[at..at + n]));
        direct := direct + PagesIn(free[at..at + n]);
      }
    }

    /** Gives back consecutive pages, in front of the free list. */
    method FreeDirectPages(f: Pfn, pages: nat)
      requires Valid() && pages > 0 && f + pages <= FRAMES && forall p :: f <= p < f + pages ==> p in direct
      modifies this, s
      ensures Valid()
      ensures s.free == Consecutive(f, pages) + old(s.free)
      ensures direct == old(direct) - PagesIn(Consecutive(f, pages))
      ensures owner.Keys == old(owner.Keys) && blocks == old(blocks) && places == old(places)
      ensures vfreeTop == old(vfreeTop) && floor == old(floor) && pageRoot == old(pageRoot)
    {
      hide Sound, Threaded, Low;
      ghost var run := Consecutive(f, pages);
      DirectFacts(s.mem, pageRoot, s.free, places, blocks, direct, owner, Low(vfreeTop), floor);
      assert f in direct;
      forall g | f <= g < f + pages ensures g in s.mem && g !in s.free {
        assert g in direct;
      }
      FreePages(s, f, pages);
      forall g: Pfn | f <= g < f + pages ensures g in run {
        assert run[g - f] == g;
      }
      GivenSound(old(s.mem), s.mem, pageRoot, old(s.free), places, blocks, direct, owner, Low(vfreeTop), floor, run);
      owner := Released(owner, run);
      direct := direct - PagesIn(run);
    }

    /** One turn of the loop of vm_memalign: backs address c, the end of block a, with a fresh page. */
    method BackNextPage(ghost a: nat, c: nat) returns (ok: bool)
      requires Valid() && a in blocks && c == a + 4096 * |blocks[a]| && floor <= c && c + 4096 <= SPACE
      requires EndIsFree(blocks, a)
      modifies this, s
      ensures !ok ==> s.free == []
      ensures |old(s.free)| >= 4 ==> ok
      ensures ok ==> |s.free| >= |old(s.free)| - 4 && SameRightsAbove(old(s.mem), s.mem, pageRoot, floor)
      ensures ok ==>
        && Valid() && old(s.free) != []
        && blocks == old(blocks)[a := old(blocks)[a] + [old(s.free)[0]]]
        && owner.Keys == old(owner.Keys) && direct == old(direct) && pageRoot == old(pageRoot)
        && vfreeTop == old(vfreeTop) && floor == old(floor)
        && |s.free| < |old(s.free)| && s.free == old(s.free)[|old(s.free)| - |s.free|..]
    {
      hide Sound, EndIsFree, Threaded, WithTables, Low, SameRightsAbove;
      var p;
      ok, p, places := BackPage(s, pageRoot, c, a, places, blocks, direct, owner, Low(vfreeTop), floor);
      if ok {
        owner := WithTables(owner[p := Backing(a, |blocks[a]|)], places);
        blocks := blocks[a := blocks[a] + [p]];
      }
    }

    /** Reserves the addresses of nr pages below those reserved before. Nothing checks that they lie above
        the rest of the address space, which the precondition therefore asks for. */
    method AllocVpages(nr: nat) returns (mem: nat)
      requires Valid() && floor + 4096 * nr <= Low(vfreeTop)
      modifies this`vfreeTop
      ensures Valid() && mem == vfreeTop
      ensures Low(vfreeTop) == Low(old(vfreeTop)) - 4096 * nr
    {
      LowAfter(vfreeTop, 4096 * nr);
      AreaShrinks(blocks, Low(vfreeTop), Low((vfreeTop - 4096 * nr) % WORD), nr);
      vfreeTop := (vfreeTop - 4096 * nr) % WORD;
      mem := vfreeTop;
    }

    /** The loop of vm_memalign: backs the pages of the new block a one after the other. */
    method BackBlock(a: nat, pages: nat) returns (ok: bool)
      requires Valid() && a in blocks && blocks[a] == [] && floor <= a && RoomFor(blocks, a, pages)
      modifies this, s
      ensures !ok ==> s.free == []
      ensures |old(s.free)| >= 4 * pages ==> ok
      ensures ok ==> |s.free| >= |old(s.free)| - 4 * pages && SameRightsAbove(old(s.mem), s.mem, old(pageRoot), old(floor))
      ensures ok ==>
        && Valid() && vfreeTop == old(vfreeTop) && floor == old(floor) && pageRoot == old(pageRoot)
        && owner.Keys == old(owner.Keys) && direct == old(direct)
        && a in blocks && |blocks[a]| == pages && blocks == old(blocks)[a := blocks[a]]
        && forall q :: q in blocks[a] ==> q in old(s.free)
    {
      hide Sound, RoomFor, EndIsFree, Threaded, SameRightsAbove;
      ok := true;
      SameRightsRefl(s.mem, pageRoot, floor);
      var p, left: nat := a, pages;
      while left > 0
        invariant Valid() && left <= pages && p == a + 4096 * (pages - left)
        invariant vfreeTop == old(vfreeTop) && floor == old(floor) && pageRoot == old(pageRoot)
        invariant owner.Keys == old(owner.Keys) && direct == old(direct)
        invariant a in blocks && |blocks[a]| == pages - left && blocks == old(blocks)[a := blocks[a]]
        invariant RoomFor(blocks, a, pages)
        invariant |s.free| >= |old(s.free)| - 4 * (pages - left)
        invariant SameRightsAbove(old(s.mem), s.mem, pageRoot, floor)
        invariant forall q :: q in s.free ==> q in old(s.free)
        invariant forall q :: q in blocks[a] ==> q in old(s.free)
        decreases left
      {
        RoomForNext(blocks, a, pages);
        ghost var before, m := blocks, s.mem;
        ok := BackNextPage(a, p);
        if !ok {
          return;
        }
        SameRightsTwice(old(s.mem), m, s.mem, pageRoot, floor);
        RoomStays(before, blocks, a, pages);
        p := p + 4096;
        left := left - 1;
      }
    }

    /** Allocates a block of size bytes, rounded up to whole pages, each page backed by a page from the free
        list. The number of pages is computed in 32 bits. The result ok is false when the free list runs
        out, which the code does not check. */
    method VmMemalign(alignment: nat, size: nat) returns (ok: bool, mem: nat)
      requires Valid() && alignment <= PAGE_SIZE && size < WORD
      requires floor + 4096 * PageCount(size) <= Low(vfreeTop)
      modifies this, s
      ensures !ok ==> s.free == []
      ensures ok ==>
        && Valid() && mem == vfreeTop && Low(mem) == Low(old(vfreeTop)) - 4096 * PageCount(size)
        && floor == old(floor) && pageRoot == old(pageRoot)
        && owner.Keys == old(owner.Keys) && direct == old(direct)
      ensures ok && PageCount(size) == 0 ==> blocks == old(blocks)
      ensures |old(s.free)| >= 4 * PageCount(size) ==> ok
      ensures ok ==> |s.free| >= |old(s.free)| - 4 * PageCount(size)
      ensures ok && 0 < size && size + 4095 < 0x1000_0000_0000 ==>
        Low(mem) in blocks && size <= 4096 * |blocks[Low(mem)]| < size + 4096
      ensures ok && Low(mem) in blocks && Low(mem) !in old(blocks) ==> forall i: nat :: i < |blocks[Low(mem)]| ==>
        TranslatedTo(old(s.mem), s.mem, pageRoot, Low(mem) + 4096 * i, blocks[Low(mem)][i])
      ensures ok && PageCount(size) > 0 ==>
        && Low(mem) in blocks && Low(mem) !in old(blocks) && |blocks[Low(mem)]| == PageCount(size)
        && blocks == old(blocks)[Low(mem) := blocks[Low(mem)]]
        && forall p :: p in blocks[Low(mem)] ==> p in old(s.free)
    {
      hide Sound, RoomFor, Threaded, PageCount, TranslatedTo;
      PageCountBounds(size);
      ghost var m := s.mem;
      var pages := PageCount(size);
      ghost var top := Low(vfreeTop);
      AboutSound(s.mem, pageRoot, s.free, places, blocks, direct, owner, top, floor);
      mem := AllocVpages(pages);
      ok := true;
      if pages == 0 {
        return;
      }
      OpenBlock(s.mem, pageRoot, s.free, places, blocks, direct, owner, Low(mem), floor, top, pages);
      blocks := blocks[Low(mem) := []];
      ok := BackBlock(Low(mem), pages);
      if ok {
        BlockTranslated(m, s.mem, pageRoot, s.free, places, blocks, direct, owner, Low(vfreeTop), floor, Low(mem));
      }
    }

    /** Frees the block at mem: exactly its backing pages go back to the free list. */
    method VmFree(mem: nat, size: nat)
      requires Valid() && mem < WORD && mem % SPACE in blocks && size == 4096 * |blocks[mem % SPACE]|
      modifies this, s
      ensures Valid()
      ensures s.free == Reversed(old(blocks)[mem % SPACE]) + old(s.free)
      ensures blocks == old(blocks) - {mem % SPACE}
      ensures owner.Keys == old(owner.Keys) && direct == old(direct) && places == old(places)
      ensures vfreeTop == old(vfreeTop) && floor == old(floor) && pageRoot == old(pageRoot)
    {
      hide Threaded, AreaOpen, BlocksMapped, BlocksPlaced, Accounted, Low, Tree;
      ghost var a := mem % SPACE;
      BlockFacts(s.mem, pageRoot, s.free, places, blocks, direct, owner, Low(vfreeTop), floor, a);
      FreeBacking(s, pageRoot, mem, size, a, blocks[a], places);
      OutsideTables(old(s.mem), s.mem, pageRoot, places, blocks, Low(vfreeTop), floor);
      AccountReleased(owner, old(s.free), places, blocks, direct, a);
      BlockRemoved(s.mem, pageRoot, blocks, Low(vfreeTop), a);
      owner := Released(owner, blocks[a]);
      blocks := blocks - {a};
    }
  }

  /** Writes to pages that are no tables change nothing in the mapping. */
  lemma OutsideTables(m: Memory, m': Memory, root: Pfn, places: Places, blocks: Blocks, top: nat, floor: nat)
    requires Tree(HOST, m, places, root) && SameTables(m, m', places)
    requires AreaOpen(m, root, floor) && BlocksMapped(m, root, blocks) && BlocksPlaced(top, blocks)
    ensures Tree(HOST, m', places, root)
    ensures AreaOpen(m', root, floor) && BlocksMapped(m', root, blocks)
  {
    TreeSameTables(HOST, m, m', places, root);
    HostAgrees();
    forall a: nat | floor <= a < SPACE ensures OpenPath(HOST, HOST_LINKS, m', root, 4, a, 1) {
      OpenPathSameTables(HOST, HOST_LINKS, m, m', places, root, 4, a, 1, ALL_RIGHTS);
    }
    forall a: nat, i: nat | a in blocks && i < |blocks[a]| ensures BlockMapped(m', root, blocks, a, i) {
      assert InArea(top, blocks, a) && BlockMapped(m, root, blocks, a, i);
      PageOutsideTables(m, m', root, places, a + 4096 * i, blocks[a][i]);
    }
  }

  lemma PageOutsideTables(m: Memory, m': Memory, root: Pfn, places: Places, a: nat, p: Pfn)
    requires Tree(HOST, m, places, root) && SameTables(m, m', places)
    requires PageMapped(m, root, a, p) && a < SPACE
    ensures PageMapped(m', root, a, p)
  {
    HostAgrees();
    OpenPathSameTables(HOST, HOST_LINKS, m, m', places, root, 4, a, 1, ALL_RIGHTS);
    WalkSameTables(HOST, m, m', places, root, 4, a, ALL_RIGHTS);
  }
}
