/** Mapping a range of guest memory 1:1 with the largest pages allowed. */
module EptRange {
  import opened Arithmetic
  import opened PhysMem
  import opened Radix
  import opened PageAllocator
  import opened TableInstall
  import opened Ept

  function PageSize(l: Level): nat
    requires l <= 3
  {
    if l == 1 then 0x1000 else if l == 2 then 0x20_0000 else 0x4000_0000
  }

  predicate Aligned(x: nat, l: Level)
    requires l <= 3
  {
    if l == 1 then x % 0x1000 == 0 else if l == 2 then x % 0x20_0000 == 0 else x % 0x4000_0000 == 0
  }

  lemma MultipleAligned(q: nat, l: Level)
    requires l <= 3
    ensures Aligned(PageSize(l) * q, l)
  {
  }

  lemma AlignedIsMultiple(x: nat, l: Level) returns (q: nat)
    requires l <= 3 && Aligned(x, l)
    ensures x == PageSize(l) * q
  {
    q := if l == 1 then x / 0x1000 else if l == 2 then x / 0x20_0000 else x / 0x4000_0000;
  }

  lemma AlignedFacts(x: nat, l: Level)
    requires l <= 3 && Aligned(x, l)
    ensures Aligned(x + PageSize(l), l) && Aligned(x, 1) && (l >= 2 ==> Aligned(x, 2))
  {
    var q := AlignedIsMultiple(x, l);
    MultipleAligned(q + 1, l);
    if l == 2 {
      MultipleAligned(0x200 * q, 1);
    } else if l == 3 {
      MultipleAligned(0x200 * q, 2);
      MultipleAligned(0x4_0000 * q, 1);
    }
  }

  /** The entry that maps the page of level l at phys with the permission bits perm. */
  function MapEntry(phys: nat, perm: Word, l: Level): Word
    requires perm.frame == 0 && phys < FRAMES * 4096
  {
    Word(perm.hi, phys / 4096, if l == 1 then perm.lo else perm.lo | LARGE_PAGE)
  }

  /** Permission bits that make a well-configured leaf: something is allowed, writing only together
      with reading, and the memory type is not a reserved one. */
  predicate PlainPermission(perm: Word) {
    perm.frame == 0 && Present(perm) && !Faulty(perm, 1)
  }

  lemma MapEntryKind(phys: nat, perm: Word, l: Level)
    requires l <= 3 && PlainPermission(perm) && phys < FRAMES * 4096
    ensures var e := MapEntry(phys, perm, l);
      && Present(e) && IsLeaf(e, l) && Grants(e) == Grants(perm) && LeafAttributes(e) == LeafAttributes(perm)
      && (Faulty(e, l) <==> PageOffset(phys / 4096, l) != 0) && e.frame == phys / 4096
  {
  }

  lemma AlignedFrame(phys: nat, l: Level)
    requires l <= 3 && phys % 4096 == 0
    ensures PageOffset(phys / 4096, l) == 0 <==> Aligned(phys, l)
  {
    var p := phys / 4096;
    if l == 2 {
      FrameParts(phys, p, 0x200);
    } else if l == 3 {
      FrameParts(phys, p, 0x4_0000);
    }
  }

  lemma FrameParts(phys: nat, p: nat, n: nat)
    requires phys == 4096 * p && n > 0
    ensures phys % (4096 * n) == 4096 * (p % n)
  {
    assert p == n * (p / n) + p % n;
    assert phys == (4096 * n) * (p / n) + 4096 * (p % n);
    Quotient(4096 * n, p / n, 4096 * (p % n));
  }

  /** An aligned page of level l consists of the addresses that share its prefix. */
  lemma OwnPage(phys: nat, l: Level, a: nat)
    requires l <= 3 && Aligned(phys, l)
    ensures PageOffset(phys / 4096, l) == 0 && phys / 4096 * 4096 == phys
    ensures Prefix(a, l) == Prefix(phys, l) <==> phys <= a < phys + PageSize(l)
    ensures Prefix(a, l) == Prefix(phys, l) ==> phys + Offset(a, l) == a
  {
    if l == 1 {
    } else if l == 2 {
      OwnLargePage2(phys, a);
    } else {
      OwnLargePage3(phys, a);
    }
  }

  lemma OwnLargePage2(phys: nat, a: nat)
    requires phys % 0x20_0000 == 0
    ensures PageOffset(phys / 4096, 2) == 0 && phys / 4096 * 4096 == phys
    ensures Prefix(a, 2) == Prefix(phys, 2) <==> phys <= a < phys + 0x20_0000
    ensures Prefix(a, 2) == Prefix(phys, 2) ==> phys + Offset(a, 2) == a
  {
    var q := phys / 0x20_0000;
    assert phys == 0x20_0000 * q && phys / 4096 == 0x200 * q;
  }

  lemma OwnLargePage3(phys: nat, a: nat)
    requires phys % 0x4000_0000 == 0
    ensures PageOffset(phys / 4096, 3) == 0 && phys / 4096 * 4096 == phys
    ensures Prefix(a, 3) == Prefix(phys, 3) <==> phys <= a < phys + 0x4000_0000
    ensures Prefix(a, 3) == Prefix(phys, 3) ==> phys + Offset(a, 3) == a
  {
    var q := phys / 0x4000_0000;
    assert phys == 0x4000_0000 * q && phys / 4096 == 0x4_0000 * q;
  }

  /** A page installed 1:1 at an aligned address translates every address in it to itself; at any other
      address the hardware rejects the large page. */
  lemma MapEntryMeaning(phys: nat, perm: Word, l: Level, a: nat, r: Rights)
    requires l <= 3 && PlainPermission(perm) && phys < FRAMES * 4096
    requires phys % 4096 == 0 && phys <= a < phys + PageSize(l) && Meet(r, Grants(perm)) == Grants(perm)
    ensures Resolve(MapEntry(phys, perm, l), l, a, r) == Mapped(a, Grants(perm), LeafAttributes(perm))
      <==> Aligned(phys, l)
  {
    hide MapEntry, PlainPermission, Faulty, Grants, LeafAttributes, PageOffset, IsLeaf, Present, Prefix, Offset;
    MapEntryKind(phys, perm, l);
    if Aligned(phys, l) {
      OwnPage(phys, l, a);
    } else {
      AlignedFrame(phys, l);
    }
  }

  // ---- paths ahead of the loop ----

  lemma {:induction false} PathOkWeaken(m: Memory, t: Pfn, l: Level, a: nat, tl: Level, need: Rights, h: Level)
    requires PathOk(m, t, l, a, tl, need) && tl <= h
    ensures PathOk(m, t, l, a, h, NO_RIGHTS)
    decreases l
  {
    if l > h {
      var e := m[t][Index(a, l)];
      if IsTable(e, l) {
        PathOkWeaken(m, e.frame, l - 1, a, tl, need, h);
      }
    }
  }

  lemma {:induction false} PathGrants(m: Memory, t: Pfn, l: Level, a: nat, tl: Level, need: Rights, h: Level, acc: Rights)
    requires PathOk(m, t, l, a, tl, need) && tl <= h && Meet(acc, need) == need
    ensures Meet(RightsAbove(m, t, l, a, h, acc), need) == need
    decreases l
  {
    if l > h {
      var e := m[t][Index(a, l)];
      if IsTable(e, l) {
        PathGrants(m, e.frame, l - 1, a, tl, need, h, Meet(acc, Grants(e)));
      }
    }
  }

  /** Every entry above a 4 KiB page of lo .. hi-1 can be passed and grants need. */
  ghost predicate PathsAhead(m: Memory, root: Pfn, lo: nat, hi: nat, need: Rights) {
    forall a: nat :: lo <= a < hi ==> PathOk(m, root, 4, a, 1, need)
  }

  /** From m to m' the addresses lo .. hi-1 became 1:1 mapped with the permission perm, and no other
      translation changed. */
  ghost predicate IdentityMapped(m: Memory, m': Memory, root: Pfn, lo: nat, hi: nat, perm: Word) {
    forall a: nat :: InRange(EPT, a) ==>
      (Translate(EPT, m', root, a) ==
       if lo <= a < hi then Mapped(a, Grants(perm), LeafAttributes(perm)) else Translate(EPT, m, root, a))
  }

  lemma IdentityStep(m0: Memory, m: Memory, m': Memory, root: Pfn, lo: nat, phys: nat, l: Level, hi: nat, perm: Word)
    requires l <= 3 && PlainPermission(perm)
    requires lo <= phys && phys + PageSize(l) <= hi <= 0x1_0000_0000_0000 && Aligned(phys, l)
    requires IdentityMapped(m0, m, root, lo, phys, perm)
    requires PathsAhead(m, root, phys, hi, Grants(perm))
    requires Installed(m, m', root, l, phys, MapEntry(phys, perm, l))
    requires PathsKeptElsewhere(m, m', root, l, phys)
    ensures IdentityMapped(m0, m', root, lo, phys + PageSize(l), perm)
    ensures PathsAhead(m', root, phys + PageSize(l), hi, Grants(perm))
  {
    var r := RightsAbove(m, root, 4, phys, l, ALL_RIGHTS);
    PathGrants(m, root, 4, phys, 1, Grants(perm), l, ALL_RIGHTS);
    forall a: nat | InRange(EPT, a)
      ensures Translate(EPT, m', root, a) ==
        if lo <= a < phys + PageSize(l) then Mapped(a, Grants(perm), LeafAttributes(perm)) else Translate(EPT, m0, root, a)
    {
      OwnPage(phys, l, a);
      if Prefix(a, l) == Prefix(phys, l) {
        MapEntryMeaning(phys, perm, l, a, r);
      }
    }
    forall a: nat | phys + PageSize(l) <= a < hi ensures PathOk(m', root, 4, a, 1, Grants(perm)) {
      OwnPage(phys, l, a);
      assert InRange(EPT, a);
    }
  }

  // ---- the loops ----

  lemma IdentityNothing(m: Memory, root: Pfn, lo: nat, perm: Word)
    ensures IdentityMapped(m, m, root, lo, lo, perm)
  {
  }

  lemma ReadyToMap(m: Memory, root: Pfn, phys: nat, max: nat, perm: Word, l: Level)
    requires l <= 3 && PlainPermission(perm) && phys < max && phys < FRAMES * 4096
    requires PathsAhead(m, root, phys, max, Grants(perm))
    ensures PathOk(m, root, 4, phys, l, NO_RIGHTS)
    ensures !(IsTable(MapEntry(phys, perm, l), l) && l > 1)
  {
    MapEntryKind(phys, perm, l);
    PathOkWeaken(m, root, 4, phys, 1, Grants(perm), l);
  }

  lemma TakenCount(m: Memory, free: seq<Pfn>, places: Places, m': Memory, free': seq<Pfn>, places': Places, n: nat)
    requires Grown(m, free, places, m', free', places', 0, n)
    ensures |free| - n <= |free'|
  {
  }

  lemma PageSizeBounds(l: Level)
    requires l <= 3
    ensures PageSize(l) >= 0x1000
  {
  }

  /** Three free pages for each 4 KiB still to be mapped are enough for the next page, and remain enough
      after it. */
  lemma PagesLast(had: nat, before: nat, after: nat, phys0: nat, phys: nat, max: nat, l: Level)
    requires l <= 3 && phys0 <= phys && phys + PageSize(l) <= max
    requires 0x1000 * (had - before) <= 3 * (phys - phys0)
    ensures 0x1000 * had >= 3 * (max - phys0) ==> before >= 4 - l
    ensures before - (4 - l) <= after ==> 0x1000 * (had - after) <= 3 * (phys + PageSize(l) - phys0)
  {
  }

  /** One of the three loops: maps whole pages of level l from phys0 on while they fit below max. */
  method MapPages(s: Machine, pml4: Pfn, l: Level, phys0: nat, max: nat, perm: Word, ghost places: Places)
    returns (ok: bool, phys: nat, ghost places': Places)
    requires l <= 3 && PlainPermission(perm)
    requires s.Valid() && Separate(s.mem, s.free, places, 0) && Tree(EPT, s.mem, places, pml4)
    requires max <= 0x1_0000_0000_0000 && phys0 <= max
    requires phys0 + PageSize(l) <= max ==> Aligned(phys0, l)
    requires PathsAhead(s.mem, pml4, phys0, max, Grants(perm))
    modifies s
    ensures s.Valid()
    ensures !ok ==> s.free == []
    ensures 0x1000 * |old(s.free)| >= 3 * (max - phys0) ==> ok
    ensures ok ==> 0x1000 * (|old(s.free)| - |s.free|) <= 3 * (phys - phys0)
    ensures ok ==>
      && phys0 <= phys <= max < phys + PageSize(l) && (phys == phys0 || Aligned(phys, l))
      && Separate(s.mem, s.free, places', 0) && Tree(EPT, s.mem, places', pml4)
      && IdentityMapped(old(s.mem), s.mem, pml4, phys0, phys, perm)
      && PathsAhead(s.mem, pml4, phys, max, Grants(perm))
  {
    hide IdentityMapped, PathsAhead, Installed, PathsKeptElsewhere, Tree, Separate, Grown, PathOk, Present, Faulty;
    hide PageSize, Aligned, MapEntry, IsTable;
    ok, phys, places' := true, phys0, places;
    IdentityNothing(s.mem, pml4, phys0, perm);
    while phys + PageSize(l) <= max
      invariant phys0 <= phys <= max && (phys == phys0 || Aligned(phys, l))
      invariant s.Valid() && Separate(s.mem, s.free, places', 0) && Tree(EPT, s.mem, places', pml4)
      invariant 0x1000 * (|old(s.free)| - |s.free|) <= 3 * (phys - phys0)
      invariant IdentityMapped(old(s.mem), s.mem, pml4, phys0, phys, perm)
      invariant PathsAhead(s.mem, pml4, phys, max, Grants(perm))
    {
      ghost var before, free, tables := s.mem, s.free, places';
      var e := MapEntry(phys, perm, l);
      PageSizeBounds(l);
      ReadyToMap(before, pml4, phys, max, perm, l);
      ok, places' := InstallEptEntry(s, pml4, l, phys, e, 0, places');
      PagesLast(|old(s.free)|, |free|, |s.free|, phys0, phys, max, l);
      if !ok {
        return;
      }
      TakenCount(before, free, tables, s.mem, s.free, places', 4 - l);
      IdentityStep(old(s.mem), before, s.mem, pml4, phys0, phys, l, max, perm);
      AlignedFacts(phys, l);
      phys := phys + PageSize(l);
    }
  }

  lemma WholePages(start: nat, len: nat, phys: nat)
    requires Aligned(start, 1) && Aligned(phys, 1) && start <= phys <= start + len < phys + 0x1000
    ensures phys == start + len / 0x1000 * 0x1000
  {
    var p, q := start / 0x1000, phys / 0x1000;
    assert start == 0x1000 * p && phys == 0x1000 * q;
    assert len / 0x1000 == q - p;
  }

  /** Maps every whole 4 KiB page of start .. start+len-1 to itself, with pages of 1 GiB and 2 MiB where
      the flags allow them. What is mapped does not depend on the flags. */
  method SetupEptRange(s: Machine, pml4: Pfn, start: nat, len: nat, map1g: bool, map2m: bool, perm: Word,
                       ghost places: Places)
    returns (ok: bool, ghost places': Places)
    requires PlainPermission(perm)
    requires s.Valid() && Separate(s.mem, s.free, places, 0) && Tree(EPT, s.mem, places, pml4)
    requires start + len <= 0x1_0000_0000_0000 && Aligned(start, 1)
    requires map2m && len >= 0x20_0000 ==> Aligned(start, 2)
    requires map1g && len >= 0x4000_0000 ==> Aligned(start, 3)
    requires PathsAhead(s.mem, pml4, start, start + len, Grants(perm))
    modifies s
    ensures s.Valid()
    ensures !ok ==> s.free == []
    ensures 0x1000 * |old(s.free)| >= 3 * len ==> ok
    ensures ok ==> 0x1000 * (|old(s.free)| - |s.free|) <= 3 * len
    ensures ok ==>
      && Separate(s.mem, s.free, places', 0) && Tree(EPT, s.mem, places', pml4)
      && IdentityMapped(old(s.mem), s.mem, pml4, start, start + len / 0x1000 * 0x1000, perm)
  {
    var phys := start;
    var max := len + start;
    ok, places' := true, places;
    if map1g {
      ok, phys, places' := MapPages(s, pml4, 3, phys, max, perm, places');
      if !ok {
        return;
      }
    }
    assert phys == start || Aligned(phys, 3);
    if phys != start {
      AlignedFacts(phys, 3);
    }
    ghost var m1, phys1 := s.mem, phys;
    if map2m {
      ok, phys, places' := MapPages(s, pml4, 2, phys, max, perm, places');
      if !ok {
        return;
      }
      IdentityTwice(old(s.mem), m1, s.mem, pml4, start, phys1, phys, perm);
    }
    if phys != start && map2m {
      AlignedFacts(phys, 2);
    }
    assert Aligned(phys, 1);
    ghost var m2, phys2 := s.mem, phys;
    ok, phys, places' := MapPages(s, pml4, 1, phys, max, perm, places');
    if !ok {
      return;
    }
    IdentityTwice(old(s.mem), m2, s.mem, pml4, start, phys2, phys, perm);
    WholePages(start, len, phys);
  }

  lemma IdentityTwice(m0: Memory, m1: Memory, m2: Memory, root: Pfn, lo: nat, mid: nat, hi: nat, perm: Word)
    requires lo <= mid <= hi
    requires IdentityMapped(m0, m1, root, lo, mid, perm) && IdentityMapped(m1, m2, root, mid, hi, perm)
    ensures IdentityMapped(m0, m2, root, lo, hi, perm)
  {
  }

  // ---- the initial tables ----

  lemma EmptyEpt(m: Memory, root: Pfn, need: Rights)
    requires root in m && m[root] == ZeroPage()
    ensures Tree(EPT, m, map[root := Place(4, 0)], root)
    ensures forall a: nat :: Translate(EPT, m, root, a) == NotMapped
    ensures PathsAhead(m, root, 0, 0x1_0000_0000_0000, need)
  {
    EmptyTree(EPT, m, root);
    forall a: nat | a < 0x1_0000_0000_0000 ensures PathOk(m, root, 4, a, 1, need) {
      assert m[root][Index(a, 4)] == ZERO_WORD;
    }
  }

  const FULL_ACCESS := Word(0, 0, EPT_WA | EPT_RA | EPT_EA)

  lemma FullAccess()
    ensures PlainPermission(FULL_ACCESS) && Grants(FULL_ACCESS) == ALL_RIGHTS
    ensures LeafAttributes(FULL_ACCESS) == Attributes(0, 0)
  {
    assert FULL_ACCESS.lo == 7;
  }

  /** Addresses 0 .. end-1 are mapped to themselves with all rights, and nothing else is mapped. */
  ghost predicate IdentityOnly(m: Memory, root: Pfn, end: nat) {
    forall a: nat :: InRange(EPT, a) ==>
      (Translate(EPT, m, root, a) == if a < end then Mapped(a, ALL_RIGHTS, Attributes(0, 0)) else NotMapped)
  }

  lemma StartsEmpty(m: Memory, m': Memory, root: Pfn, end: nat)
    requires root in m && m[root] == ZeroPage()
    requires IdentityMapped(m, m', root, 0, end, FULL_ACCESS)
    ensures IdentityOnly(m', root, end)
  {
    EmptyEpt(m, root, NO_RIGHTS);
    FullAccess();
  }

  /** The tables that setup_ept builds: guest memory up to its end, and at least 4 GiB, is mapped 1:1 with
      all rights. */
  method SetupEpt(s: Machine, ramSize: nat, use2m: bool) returns (ok: bool, pml4: Pfn, ghost places: Places)
    requires s.Valid() && ramSize <= 0x1_0000_0000_0000
    modifies s
    ensures s.Valid()
    ensures !ok ==> s.free == []
    ensures 0x1000 * |old(s.free)| >= 0x1000 + 3 * (if ramSize < 0x1_0000_0000 then 0x1_0000_0000 else ramSize) ==> ok
    ensures ok ==>
      var end := if ramSize < 0x1_0000_0000 then 0x1_0000_0000 else ramSize;
      && Tree(EPT, s.mem, places, pml4) && Separate(s.mem, s.free, places, 0)
      && IdentityOnly(s.mem, pml4, end / 0x1000 * 0x1000)
  {
    hide Tree, PathsAhead, IdentityMapped, IdentityOnly, PlainPermission, Threaded, NoDuplicates;
    places := map[];
    FreeHead(s.mem, s.freelist, s.free);
    pml4 := AllocPage(s);
    ok := pml4 != 0;
    if !ok {
      return;
    }
    s.mem := s.mem[pml4 := ZeroPage()];
    ThreadedElsewhere(old(s.mem), s.mem, s.freelist, s.free);
    var endOfMemory := ramSize;
    if endOfMemory < 0x1_0000_0000 {
      endOfMemory := 0x1_0000_0000;
    }
    EmptyEpt(s.mem, pml4, Grants(FULL_ACCESS));
    FullAccess();
    PathsAheadPrefix(s.mem, pml4, endOfMemory, Grants(FULL_ACCESS));
    places := map[pml4 := Place(4, 0)];
    ghost var before := s.mem;
    ok, places := SetupEptRange(s, pml4, 0, endOfMemory, false, use2m, FULL_ACCESS, places);
    if ok {
      StartsEmpty(before, s.mem, pml4, endOfMemory / 0x1000 * 0x1000);
    }
  }

  lemma PathsAheadPrefix(m: Memory, root: Pfn, end: nat, need: Rights)
    requires PathsAhead(m, root, 0, 0x1_0000_0000_0000, need) && end <= 0x1_0000_0000_0000
    ensures PathsAhead(m, root, 0, end, need)
  {
  }
}
