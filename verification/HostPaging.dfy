/** 4-level host page tables: installing pages, looking entries up, splitting large pages. */
module HostPaging {
  import opened PhysMem
  import opened Radix
  import opened PageAllocator
  import opened TableInstall

  const PT_PRESENT_MASK: bv12 := 1
  const PT_WRITABLE_MASK: bv12 := 2
  const PT_USER_MASK: bv12 := 4
  const PT_PAGE_SIZE_MASK: bv12 := 0x80

  // ---- the entry format, after section 4.5 of the Intel SDM, vol. 3A ----

  predicate Present(e: Word) {
    e.lo & 1 != 0
  }

  predicate Large(e: Word) {
    e.lo & 0x80 != 0
  }

  predicate IsLeaf(e: Word, l: Level) {
    l == 1 || ((l == 2 || l == 3) && Large(e))
  }

  /** The frame number relative to the page of level l that it lies in. */
  function PageOffset(p: nat, l: Level): (o: nat)
    ensures o <= p
  {
    if l == 2 then p % 0x200 else if l == 3 then p % 0x4_0000 else 0
  }

  /** A reserved bit is set: the page-size bit at level 4, or in a large page an address bit below its
      size. Bit 12 of a large page is not an address bit but its PAT bit. */
  predicate Faulty(e: Word, l: Level) {
    (l == 4 && Large(e)) || (IsLeaf(e, l) && PageOffset(e.frame, l) > 1)
  }

  predicate IsTable(e: Word, l: Level) {
    Present(e) && !IsLeaf(e, l) && !Faulty(e, l)
  }

  /** Bit 63 forbids execution. */
  function Grants(e: Word): Rights {
    Rights(true, e.lo & 2 != 0, e.hi & 0x800 == 0, e.lo & 4 != 0)
  }

  /** The PAT bit: bit 7 of a 4 KiB entry, bit 12 of a large one. */
  predicate Pat(e: Word, l: Level) {
    if l == 1 then e.lo & 0x80 != 0 else e.frame % 2 == 1
  }

  /** PWT, PCD, PAT and global in the low part, the protection key in the high part. */
  function LeafAttributes(e: Word, l: Level): Attributes {
    Attributes(e.hi & 0x780, (e.lo & 0x118) | (if Pat(e, l) then 0x80 else 0))
  }

  function Resolve(e: Word, l: Level, a: nat, acc: Rights): Outcome {
    if !Present(e) then NotMapped
    else if Faulty(e, l) then Misconfigured
    else Mapped((e.frame - PageOffset(e.frame, l)) * 4096 + Offset(a, l), Meet(acc, Grants(e)), LeafAttributes(e, l))
  }

  const HOST: Format := Format(4, IsTable, Grants, Resolve)

  function TablePointer(n: Pfn): Word {
    Word(0, n, PT_PRESENT_MASK | PT_WRITABLE_MASK | PT_USER_MASK)
  }

  const HOST_LINKS: Linkage := Linkage(Present, TablePointer)

  lemma HostAgrees()
    ensures Agrees(HOST, HOST_LINKS)
  {
    forall n: Pfn, l: Level | l > 1 ensures HOST.isTable(HOST_LINKS.pointer(n), l) {
      assert TablePointer(n).lo == 7;
    }
    forall n: Pfn ensures HOST_LINKS.pointer(n).frame == n && HOST.grants(HOST_LINKS.pointer(n)) == ALL_RIGHTS {
      assert TablePointer(n).lo == 7 && TablePointer(n).hi == 0;
    }
  }

  // ---- installing ----

  /** Installs pte for virt at level tl and says in which table. */
  method InstallPte(s: Machine, cr3: Pfn, tl: Level, virt: nat, pte: Word, ptPage: Pfn, ghost places: Places)
    returns (ok: bool, pt: Pfn, ghost places': Places)
    requires s.Valid() && Separate(s.mem, s.free, places, ptPage)
    requires Tree(HOST, s.mem, places, cr3) && InRange(HOST, virt)
    requires OpenPath(HOST, HOST_LINKS, s.mem, cr3, 4, virt, tl)
    requires !(IsTable(pte, tl) && tl > 1)
    modifies s
    ensures s.Valid()
    ensures !ok ==> s.free == []
    ensures |old(s.free)| >= 4 - tl ==> ok
    ensures ok ==>
      && Separate(s.mem, s.free, places', 0)
      && Tree(HOST, s.mem, places', cr3)
      && Replaced(HOST, old(s.mem), s.mem, cr3, tl, virt, pte)
      && OpenAbove(HOST, HOST_LINKS, old(s.mem), s.mem, cr3, tl)
      && Grown(old(s.mem), old(s.free), places, s.mem, s.free, places', ptPage, 4 - tl)
      && pt in places' && pt in s.mem && s.mem[pt][Index(virt, tl)] == pte
  {
    HostAgrees();
    ok, pt, places' := Install(s, HOST, HOST_LINKS, cr3, tl, virt, pte, ptPage, places);
  }

  // ---- looking up ----

  /** The entry (t, i) at level l is where the search for virt down to level lowest ends: the tables above
      it are present, and it is at level lowest, or is no pointer to a table. */
  ghost predicate SearchEnds(m: Memory, cr3: Pfn, virt: nat, lowest: Level, t: Pfn, i: nat, l: Level) {
    && l >= lowest && t in m && i == Index(virt, l)
    && (exists r :: Reaches(HOST, m, cr3, 4, virt, ALL_RIGHTS, t, l, r))
    && (l > lowest ==> !IsTable(m[t][i], l))
  }

  /** The last entry for virt at or above level lowest. */
  method FindPteLevel(s: Machine, cr3: Pfn, virt: nat, lowest: Level, ghost places: Places)
    returns (t: Pfn, i: nat, l: Level, ghost r: Rights)
    requires Tree(HOST, s.mem, places, cr3) && InRange(HOST, virt)
    requires PlainRoot(s.mem, cr3, virt)
    ensures SearchEnds(s.mem, cr3, virt, lowest, t, i, l)
    ensures At(HOST, s.mem, places, cr3, virt, t, l, r)
  {
    l, t, r := 4, cr3, ALL_RIGHTS;
    while true
      invariant lowest <= l
      invariant At(HOST, s.mem, places, cr3, virt, t, l, r)
      decreases l
    {
      ChildFacts(HOST, s.mem, places, t, l, virt);
      i := Index(virt, l);
      var pte := s.mem[t][i];
      if !Present(pte) || ((l == 2 || l == 3) && Large(pte)) || l == lowest {
        return;
      }
      ReachesChild(HOST, s.mem, cr3, 4, virt, ALL_RIGHTS, t, l, r);
      assert TableOk(HOST, s.mem, places, t);
      assert EntryOk(HOST, pte, places, places[t], i);
      PrefixIndex(virt, l);
      r := Meet(r, Grants(pte));
      t, l := pte.frame, l - 1;
    }
  }

  lemma {:induction false} SearchTranslates(m: Memory, cr3: Pfn, virt: nat, t: Pfn, i: nat, l: Level)
    requires SearchEnds(m, cr3, virt, 1, t, i, l)
    ensures exists r :: Translate(HOST, m, cr3, virt) == Resolve(m[t][i], l, virt, r)
  {
    var r :| Reaches(HOST, m, cr3, 4, virt, ALL_RIGHTS, t, l, r);
    ReachesWalk(HOST, m, cr3, 4, virt, ALL_RIGHTS, t, l, r);
  }

  /** What virt_to_pte_phys computes from the entry found. */
  function PtePhys(e: Word, virt: nat): nat {
    e.frame * 4096 + virt % 4096
  }

  /** An offset in a page of level l is a number of 4 KiB pages and an offset in one of them. */
  lemma OffsetInPages(a: nat, l: Level)
    requires l <= 3
    ensures Offset(a, l) == Offset(a, l) / 4096 * 4096 + a % 4096
  {
    if l == 2 {
      OffsetStep(a, 2);
    } else if l == 3 {
      OffsetStep(a, 3);
      OffsetStep(a, 2);
    }
  }

  lemma SameAddressIff(f: nat, o: nat, pages: nat, low: nat)
    requires o <= f
    ensures f * 4096 + low == (f - o) * 4096 + (pages * 4096 + low) <==> pages == o
  {
  }

  /** It is the translation when the entry is a 4 KiB one, and for a large page only in one 4 KiB part:
      the bits of virt above bit 11 are not taken into account. */
  lemma PtePhysExactIff(e: Word, l: Level, virt: nat, r: Rights)
    requires Present(e) && IsLeaf(e, l) && !Faulty(e, l)
    ensures PtePhys(e, virt) == Resolve(e, l, virt, r).addr <==> Offset(virt, l) / 4096 == PageOffset(e.frame, l)
    ensures l == 1 ==> PtePhys(e, virt) == Resolve(e, l, virt, r).addr
  {
    OffsetInPages(virt, l);
    SameAddressIff(e.frame, PageOffset(e.frame, l), Offset(virt, l) / 4096, virt % 4096);
  }

  /** virt_to_pte_phys; found is false where the code would follow a null pointer. */
  method VirtToPtePhys(s: Machine, cr3: Pfn, virt: nat, ghost places: Places)
    returns (found: bool, pa: nat, ghost t: Pfn, ghost l: Level)
    requires Tree(HOST, s.mem, places, cr3) && InRange(HOST, virt)
    requires PlainRoot(s.mem, cr3, virt)
    ensures SearchEnds(s.mem, cr3, virt, 1, t, Index(virt, l), l)
    ensures Translate(HOST, s.mem, cr3, virt).Mapped? ==> found
    ensures Translate(HOST, s.mem, cr3, virt).Mapped? ==>
      (pa == Translate(HOST, s.mem, cr3, virt).addr <==>
       Offset(virt, l) / 4096 == PageOffset(s.mem[t][Index(virt, l)].frame, l))
  {
    var table, i, level;
    ghost var r0;
    table, i, level, r0 := FindPteLevel(s, cr3, virt, 1, places);
    var e := s.mem[table][i];
    t, l := table, level;
    SearchTranslates(s.mem, cr3, virt, t, i, l);
    found := level == 1 || ((level == 2 || level == 3) && Present(e) && Large(e));
    pa := PtePhys(e, virt);
    if Translate(HOST, s.mem, cr3, virt).Mapped? {
      var r :| Translate(HOST, s.mem, cr3, virt) == Resolve(e, l, virt, r);
      PtePhysExactIff(e, l, virt, r);
    }
  }

  /** The entry of the top table for addr does not have the page-size bit, which is reserved there. */
  ghost predicate PlainRoot(m: Memory, cr3: Pfn, addr: nat) {
    cr3 in m && !(Present(m[cr3][Index(addr, 4)]) && Large(m[cr3][Index(addr, 4)]))
  }

  // ---- splitting ----

  /** Splits the large page at entry i of table t into 512 smaller ones. The result is the new table, or
      0 when there is no free page, which the code asserts not to happen. */
  method SplitLargePage(s: Machine, t: Pfn, i: nat, level: Level) returns (newPt: Pfn)
    requires s.Valid()
    requires t in s.mem && t !in s.free && i < ENTRIES
    requires Present(s.mem[t][i]) && Large(s.mem[t][i]) && (level == 2 || level == 3)
    modifies s
    ensures s.Valid()
    ensures newPt == 0 <==> old(s.free) == []
    ensures newPt == 0 ==> s.free == [] && s.mem == old(s.mem)
    ensures newPt != 0 ==> s.free == old(s.free)[1..] && newPt == old(s.free)[0] && newPt in old(s.mem)
    ensures newPt != 0 ==>
      var e := old(s.mem)[t][i];
      s.mem == Store(old(s.mem)[newPt := SplitPage(e, level)], t, i, SplitParent(e, newPt))
  {
    var pte := s.mem[t][i];
    assert s.free != [] ==> LinkedAt(s.mem, s.free, 0, 0);
    newPt := AllocPage(s);
    if newPt == 0 {
      return;
    }
    var prototype := pte.(frame := 0);
    if level == 2 {
      prototype := ClearLarge(prototype);
    }
    FillPage(s, newPt, prototype, pte.frame, level);
    s.mem := Store(s.mem, t, i, ClearLarge(pte).(frame := newPt));
    ThreadedElsewhere(old(s.mem), s.mem, s.freelist, s.free);
  }

  /** A well-configured large leaf. */
  predicate LargeLeaf(e: Word, l: Level) {
    Present(e) && (l == 2 || l == 3) && Large(e) && !Faulty(e, l)
  }

  lemma Remainder(n: nat, k: nat, o: nat)
    requires n == 512 || n == 2
    requires o < n
    ensures (n * k + o) % n == o
  {
    var x := n * k + o;
    var q := x / n;
    assert x == n * q + x % n;
    assert q <= k && k <= q;
  }

  lemma Remainders(k: nat, o: nat)
    requires o <= 1
    ensures (512 * k + o) % 512 == o && (512 * k + o) % 2 == o
  {
    Remainder(512, k, o);
    Remainder(2, 256 * k, o);
    assert 512 * k + o == 2 * (256 * k) + o;
  }

  lemma ChildFrame(f: Pfn, l: Level, j: nat)
    requires (l == 2 || l == 3) && PageOffset(f, l) <= 1 && j < 512
    requires l == 2 ==> PageOffset(f, l) == 0
    ensures var c := f + PagesBefore(l, j);
      && c < FRAMES && PageOffset(c, l - 1) == PageOffset(f, l)
      && f % 2 == PageOffset(f, l) && (l == 3 ==> c % 2 == f % 2)
  {
    var o := PageOffset(f, l);
    if l == 2 {
      Remainders(f / 512, o);
      assert f == 512 * (f / 512) + o;
    } else {
      var q := f / 0x4_0000;
      assert f == 512 * (512 * q) + o;
      Remainders(512 * q, o);
      Remainders(512 * q + j, o);
      assert f + 512 * j == 512 * (512 * q + j) + o;
    }
  }

  lemma ChildKind(e: Word, l: Level, j: nat)
    requires LargeLeaf(e, l) && (l == 2 ==> PageOffset(e.frame, l) == 0) && j < 512
    ensures var c := SplitPage(e, l)[j];
      && c.frame == e.frame + PagesBefore(l, j)
      && Present(c) && IsLeaf(c, l - 1) && !Faulty(c, l - 1) && (l == 3 ==> LargeLeaf(c, 2))
      && PageOffset(c.frame, l - 1) == PageOffset(e.frame, l)
      && Grants(c) == Grants(e) && LeafAttributes(c, l - 1) == LeafAttributes(e, l)
  {
    ChildFrame(e.frame, l, j);
    assert e.lo & !0x80 & 1 == e.lo & 1;
  }

  lemma ParentKind(e: Word, l: Level, n: Pfn)
    requires LargeLeaf(e, l)
    ensures var x := SplitParent(e, n);
      IsTable(x, l) && x.frame == n && Grants(x) == Grants(e)
  {
  }

  lemma SplitMeaningAt(e: Word, l: Level, n: Pfn, a: nat, r: Rights)
    requires LargeLeaf(e, l) && (l == 2 ==> PageOffset(e.frame, l) == 0)
    ensures SameMeaningAt(HOST, e, l, SplitParent(e, n), SplitPage(e, l), a, r)
  {
    ChildKind(e, l, Index(a, l - 1));
    ParentKind(e, l, n);
    OffsetStep(a, l);
  }

  /** What the hardware makes of address a at the entry that a split leaves behind. */
  ghost function AfterSplit(e: Word, l: Level, n: Pfn, a: nat, r: Rights): Outcome
    requires l == 2 || l == 3
  {
    Resolve(SplitPage(e, l)[Index(a, l - 1)], l - 1, a, Meet(r, Grants(SplitParent(e, n))))
  }

  /** With its PAT bit set, a 2 MiB page is split into 4 KiB pages that all lie one page too high: the
      code takes the PAT bit for an address bit. */
  lemma SplitShifts(e: Word, n: Pfn, a: nat, r: Rights)
    requires LargeLeaf(e, 2) && PageOffset(e.frame, 2) == 1
    ensures AfterSplit(e, 2, n, a, r) != Resolve(e, 2, a, r)
  {
    var j := Index(a, 1);
    var c := SplitPage(e, 2)[j];
    OffsetStep(a, 2);
    assert Present(c) by {
      assert e.lo & !0x80 & 1 == e.lo & 1;
    }
    assert c.frame == (e.frame + j) % FRAMES;
    assert c.frame != e.frame - 1 + j;
  }

  /** Splitting a well-configured large page preserves every translation exactly when it is a 1 GiB page
      or its PAT bit is clear. */
  lemma SplitPreservesIff(e: Word, l: Level, n: Pfn, r: Rights)
    requires LargeLeaf(e, l)
    ensures (forall a: nat :: AfterSplit(e, l, n, a, r) == Resolve(e, l, a, r)) <==>
      (l == 3 || PageOffset(e.frame, l) == 0)
  {
    if l == 3 || PageOffset(e.frame, l) == 0 {
      forall a: nat ensures AfterSplit(e, l, n, a, r) == Resolve(e, l, a, r) {
        SplitMeaningAt(e, l, n, a, r);
      }
    } else {
      SplitShifts(e, n, 0, r);
    }
  }

  lemma SplitHasNoTables(e: Word, l: Level)
    requires LargeLeaf(e, l)
    ensures NoTables(HOST, SplitPage(e, l), l - 1)
  {
    forall j: nat | j < ENTRIES ensures !(HOST.isTable(SplitPage(e, l)[j], l - 1) && l - 1 > 1) {
      if l == 3 {
        ChildKind(e, l, j);
      }
    }
  }

  /** Once the large page at entry (t, i) has been split, the walk for every address in it goes through the
      new table n. */
  lemma SplitInTree(m: Memory, m': Memory, places: Places, cr3: Pfn, addr: nat, t: Pfn, l: Level, r: Rights, n: Pfn)
    requires Tree(HOST, m, places, cr3) && InRange(HOST, addr) && At(HOST, m, places, cr3, addr, t, l, r)
    requires t in m && LargeLeaf(m[t][Index(addr, l)], l) && n !in places
    requires m' == Store(m[n := SplitPage(m[t][Index(addr, l)], l)], t, Index(addr, l), SplitParent(m[t][Index(addr, l)], n))
    ensures var e := m[t][Index(addr, l)]; var places' := places[n := Place(l - 1, Prefix(addr, l))];
      && Tree(HOST, m', places', cr3)
      && n in m' && m'[n] == SplitPage(e, l)
      && At(HOST, m', places', cr3, addr, n, l - 1, Meet(r, Grants(e)))
      && (SameTranslations(HOST, m, m', cr3) <==> (l == 3 || PageOffset(e.frame, l) == 0))
  {
    var e := m[t][Index(addr, l)];
    var x, page := SplitParent(e, n), SplitPage(e, l);
    ParentKind(e, l, n);
    SplitHasNoTables(e, l);
    GraftKeepsTree(HOST, m, m', places, cr3, addr, t, l, n, x, page);
    GraftReaches(HOST, m, m', places, cr3, addr, t, l, r, n, x, page);
    var places' := places[n := Place(l - 1, Prefix(addr, l))];
    if l == 3 || PageOffset(e.frame, l) == 0 {
      forall b: nat, q: Rights ensures SameMeaningAt(HOST, e, l, x, page, b, q) {
        SplitMeaningAt(e, l, n, b, q);
      }
      Graft(HOST, m, m', places, cr3, addr, t, l, r, n, x, page);
    } else {
      TranslateInSlot(HOST, m, places, cr3, addr, t, l, r, addr);
      TranslateInSlot(HOST, m', places', cr3, addr, n, l - 1, Meet(r, Grants(e)), addr);
      SplitShifts(e, n, addr, r);
      assert Translate(HOST, m', cr3, addr) != Translate(HOST, m, cr3, addr);
    }
  }

  /** The entry for addr at the end of a search, if it is a large page, is split. */
  method SplitForAddress(s: Machine, cr3: Pfn, addr: nat, t: Pfn, i: nat, l: Level, ghost r: Rights, ghost places: Places)
    returns (ok: bool, ghost places': Places)
    requires s.Valid() && Separate(s.mem, s.free, places, 0)
    requires Tree(HOST, s.mem, places, cr3) && PlainRoot(s.mem, cr3, addr) && InRange(HOST, addr)
    requires At(HOST, s.mem, places, cr3, addr, t, l, r) && t in s.mem && i == Index(addr, l)
    requires LargeLeaf(s.mem[t][i], l)
    modifies s
    ensures s.Valid()
    ensures !ok ==> s.free == []
    ensures old(s.free) != [] ==> ok
    ensures ok ==>
      && Separate(s.mem, s.free, places', 0)
      && Tree(HOST, s.mem, places', cr3) && PlainRoot(s.mem, cr3, addr)
      && Grown(old(s.mem), old(s.free), places, s.mem, s.free, places', 0, 1)
    ensures ok ==>
      var e := old(s.mem[t][i]);
      && (SameTranslations(HOST, old(s.mem), s.mem, cr3) <==> (l == 3 || PageOffset(e.frame, l) == 0))
      && exists n: Pfn :: n in s.mem && s.mem[n] == SplitPage(e, l)
           && At(HOST, s.mem, places', cr3, addr, n, l - 1, Meet(r, Grants(e)))
  {
    places' := places;
    ghost var e := s.mem[t][i];
    assert t !in s.free;
    var n := SplitLargePage(s, t, i, l);
    ok := n != 0;
    if !ok {
      return;
    }
    places' := places[n := Place(l - 1, Prefix(addr, l))];
    GrownByOne(old(s.mem), old(s.free), places, s.mem, s.free, 0, 0, n, SplitPage(e, l), places'[n], t, i, SplitParent(e, n));
    SplitInTree(old(s.mem), s.mem, places, cr3, addr, t, l, r, n);
    RootKeptPlain(old(s.mem), s.mem, places, cr3, addr, t, l, r, n, SplitPage(e, l), SplitParent(e, n));
  }

  lemma RootKeptPlain(m: Memory, m': Memory, places: Places, cr3: Pfn, addr: nat, t: Pfn, l: Level, r: Rights, n: Pfn,
                      page: Page, x: Word)
    requires Tree(HOST, m, places, cr3) && PlainRoot(m, cr3, addr) && n !in places && l < 4
    requires At(HOST, m, places, cr3, addr, t, l, r) && t in m
    requires m' == Store(m[n := page], t, Index(addr, l), x)
    ensures PlainRoot(m', cr3, addr)
  {
    assert m'[cr3] == m[cr3];
  }

  /** The search for addr, down to level 1, meets a large page whose PAT bit is set. */
  ghost predicate LargeWithPat(m: Memory, cr3: Pfn, addr: nat) {
    exists t: Pfn, l: Level ::
      && SearchEnds(m, cr3, addr, 1, t, Index(addr, l), l)
      && LargeLeaf(m[t][Index(addr, l)], l) && PageOffset(m[t][Index(addr, l)].frame, l) == 1
  }

  lemma {:induction false} SameReach(m: Memory, t: Pfn, l: Level, a: nat, acc: Rights, lowest: Level,
                                     u1: Pfn, l1: Level, r1: Rights, u2: Pfn, l2: Level, r2: Rights)
    requires Reaches(HOST, m, t, l, a, acc, u1, l1, r1) && Reaches(HOST, m, t, l, a, acc, u2, l2, r2)
    requires l1 >= lowest && l2 >= lowest && u1 in m && u2 in m
    requires l1 > lowest ==> !IsTable(m[u1][Index(a, l1)], l1)
    requires l2 > lowest ==> !IsTable(m[u2][Index(a, l2)], l2)
    ensures u1 == u2 && l1 == l2
    decreases l
  {
    if l != l1 && l != l2 {
      var e := m[t][Index(a, l)];
      SameReach(m, e.frame, l - 1, a, Meet(acc, Grants(e)), lowest, u1, l1, r1, u2, l2, r2);
    }
  }

  /** A search has one end only. */
  lemma SearchEndsOnce(m: Memory, cr3: Pfn, addr: nat, lowest: Level, t: Pfn, l: Level, t': Pfn, l': Level)
    requires SearchEnds(m, cr3, addr, lowest, t, Index(addr, l), l)
    requires SearchEnds(m, cr3, addr, lowest, t', Index(addr, l'), l')
    ensures t == t' && l == l'
  {
    var r :| Reaches(HOST, m, cr3, 4, addr, ALL_RIGHTS, t, l, r);
    var r' :| Reaches(HOST, m, cr3, 4, addr, ALL_RIGHTS, t', l', r');
    SameReach(m, cr3, 4, addr, ALL_RIGHTS, lowest, t, l, r, t', l', r');
  }

  lemma EndsHere(m: Memory, places: Places, cr3: Pfn, addr: nat, lowest: Level, t: Pfn, l: Level, r: Rights)
    requires At(HOST, m, places, cr3, addr, t, l, r) && t in m && l >= lowest
    requires l > lowest ==> !IsTable(m[t][Index(addr, l)], l)
    ensures SearchEnds(m, cr3, addr, lowest, t, Index(addr, l), l)
  {
  }

  lemma PatHere(m: Memory, places: Places, cr3: Pfn, addr: nat, t: Pfn, l: Level, r: Rights)
    requires At(HOST, m, places, cr3, addr, t, l, r) && t in m
    requires l == 1 || LargeLeaf(m[t][Index(addr, l)], l)
    ensures LargeWithPat(m, cr3, addr) <==> l > 1 && PageOffset(m[t][Index(addr, l)].frame, l) == 1
  {
    EndsHere(m, places, cr3, addr, 1, t, l, r);
    if t': Pfn, l': Level :|
      && SearchEnds(m, cr3, addr, 1, t', Index(addr, l'), l')
      && LargeLeaf(m[t'][Index(addr, l')], l') && PageOffset(m[t'][Index(addr, l')].frame, l') == 1
    {
      SearchEndsOnce(m, cr3, addr, 1, t, l, t', l');
    }
  }

  /** A pointer to a table leads to the table for addr one level below. */
  lemma FollowPointer(m: Memory, places: Places, cr3: Pfn, addr: nat, t: Pfn, l: Level, r: Rights)
    requires Tree(HOST, m, places, cr3) && l > 1
    requires At(HOST, m, places, cr3, addr, t, l, r) && t in m && IsTable(m[t][Index(addr, l)], l)
    ensures var e := m[t][Index(addr, l)];
      At(HOST, m, places, cr3, addr, e.frame, l - 1, Meet(r, Grants(e))) && e.frame in m
  {
    var e := m[t][Index(addr, l)];
    ReachesChild(HOST, m, cr3, 4, addr, ALL_RIGHTS, t, l, r);
    assert TableOk(HOST, m, places, t);
    assert EntryOk(HOST, e, places, places[t], Index(addr, l));
    assert TableOk(HOST, m, places, e.frame);
    PrefixIndex(addr, l);
  }

  /** At level 2, the second half of force_4k_page: afterwards addr is translated by a level-1 entry. */
  method ForceAtLevel2(s: Machine, cr3: Pfn, addr: nat, t: Pfn, ghost r: Rights, ghost places: Places)
    returns (ok: bool, ghost places': Places)
    requires s.Valid() && Separate(s.mem, s.free, places, 0)
    requires Tree(HOST, s.mem, places, cr3) && PlainRoot(s.mem, cr3, addr) && InRange(HOST, addr)
    requires At(HOST, s.mem, places, cr3, addr, t, 2, r) && t in s.mem
    requires Translate(HOST, s.mem, cr3, addr) != Misconfigured
    modifies s
    ensures s.Valid()
    ensures !ok ==> s.free == [] || Translate(HOST, old(s.mem), cr3, addr) == NotMapped
    ensures |old(s.free)| >= 1 && Translate(HOST, old(s.mem), cr3, addr) != NotMapped ==> ok
    ensures ok ==>
      && Separate(s.mem, s.free, places', 0)
      && Tree(HOST, s.mem, places', cr3) && PlainRoot(s.mem, cr3, addr)
      && Grown(old(s.mem), old(s.free), places, s.mem, s.free, places', 0, 1)
      && (SameTranslations(HOST, old(s.mem), s.mem, cr3) <==> !LargeWithPat(old(s.mem), cr3, addr))
      && exists n: Pfn :: SearchEnds(s.mem, cr3, addr, 1, n, Index(addr, 1), 1)
  {
    hide Grown, Separate, PlainRoot, LargeWithPat, At, SearchEnds, Translate;
    places' := places;
    var pte := s.mem[t][Index(addr, 2)];
    ok := Present(pte);
    TranslateInSlotUnlessTable(s.mem, places, cr3, addr, t, 2, r);
    if !ok {
    } else if Large(pte) {
      PatHere(s.mem, places, cr3, addr, t, 2, r);
      ok, places' := SplitForAddress(s, cr3, addr, t, Index(addr, 2), 2, r, places);
      if ok {
        ghost var n: Pfn :| n in s.mem && At(HOST, s.mem, places', cr3, addr, n, 1, Meet(r, Grants(pte)));
        EndsHere(s.mem, places', cr3, addr, 1, n, 1, Meet(r, Grants(pte)));
      }
    } else {
      FollowPointer(s.mem, places, cr3, addr, t, 2, r);
      PatHere(s.mem, places, cr3, addr, pte.frame, 1, Meet(r, Grants(pte)));
      EndsHere(s.mem, places, cr3, addr, 1, pte.frame, 1, Meet(r, Grants(pte)));
      NothingGrown(s.mem, s.free, places);
    }
  }

  lemma GrownCount(m: Memory, free: seq<Pfn>, places: Places, m': Memory, free': seq<Pfn>, places': Places, n: nat)
    requires Grown(m, free, places, m', free', places', 0, n)
    ensures |free| - n <= |free'| <= |free|
  {
  }

  lemma NothingGrown(m: Memory, free: seq<Pfn>, places: Places)
    ensures Grown(m, free, places, m, free, places, 0, 1)
  {
  }

  lemma SearchAtLevel2(m: Memory, places: Places, cr3: Pfn, addr: nat, t: Pfn, r: Rights, t': Pfn, l': Level)
    requires At(HOST, m, places, cr3, addr, t, 2, r) && t in m
    requires SearchEnds(m, cr3, addr, 2, t', Index(addr, l'), l')
    ensures l' == 2 && t' == t
  {
    EndsHere(m, places, cr3, addr, 2, t, 2, r);
    SearchEndsOnce(m, cr3, addr, 2, t, 2, t', l');
  }

  /** The 1 GiB page split first keeps its PAT bit in the 2 MiB page that is met next. */
  lemma PatInherited(m: Memory, m1: Memory, places: Places, places1: Places, cr3: Pfn, addr: nat, t: Pfn, r: Rights,
                     n: Pfn, r1: Rights)
    requires At(HOST, m, places, cr3, addr, t, 3, r) && t in m && LargeLeaf(m[t][Index(addr, 3)], 3)
    requires At(HOST, m1, places1, cr3, addr, n, 2, r1) && n in m1 && m1[n] == SplitPage(m[t][Index(addr, 3)], 3)
    ensures LargeWithPat(m1, cr3, addr) <==> LargeWithPat(m, cr3, addr)
  {
    ChildKind(m[t][Index(addr, 3)], 3, Index(addr, 2));
    PatHere(m, places, cr3, addr, t, 3, r);
    PatHere(m1, places1, cr3, addr, n, 2, r1);
  }

  /** The first half of force_4k_page: afterwards the entry at level 3 points to a table. */
  method ForceAtLevel3(s: Machine, cr3: Pfn, addr: nat, ghost places: Places)
    returns (ok: bool, ghost t2: Pfn, ghost r2: Rights, ghost places': Places)
    requires s.Valid() && Separate(s.mem, s.free, places, 0)
    requires Tree(HOST, s.mem, places, cr3) && PlainRoot(s.mem, cr3, addr) && InRange(HOST, addr)
    requires Translate(HOST, s.mem, cr3, addr) != Misconfigured
    modifies s
    ensures s.Valid()
    ensures !ok ==> s.free == [] || Translate(HOST, old(s.mem), cr3, addr) == NotMapped
    ensures |old(s.free)| >= 1 && Translate(HOST, old(s.mem), cr3, addr) != NotMapped ==> ok
    ensures ok ==>
      && Separate(s.mem, s.free, places', 0)
      && Tree(HOST, s.mem, places', cr3) && PlainRoot(s.mem, cr3, addr)
      && Grown(old(s.mem), old(s.free), places, s.mem, s.free, places', 0, 1)
      && SameTranslations(HOST, old(s.mem), s.mem, cr3)
      && (LargeWithPat(s.mem, cr3, addr) <==> LargeWithPat(old(s.mem), cr3, addr))
      && t2 in s.mem && At(HOST, s.mem, places', cr3, addr, t2, 2, r2)
  {
    places', t2 := places, 0;
    var t, i, l;
    t, i, l, r2 := FindPteLevel(s, cr3, addr, 3, places);
    TranslateInSlotUnlessTable(s.mem, places, cr3, addr, t, l, r2);
    ok := l == 3 && Present(s.mem[t][i]);
    if !ok {
      return;
    }
    ghost var m0, e, r := s.mem, s.mem[t][i], r2;
    r2 := Meet(r, Grants(e));
    if Large(s.mem[t][i]) {
      ok, places' := SplitForAddress(s, cr3, addr, t, i, 3, r, places);
      if ok {
        t2 :| t2 in s.mem && s.mem[t2] == SplitPage(e, 3) && At(HOST, s.mem, places', cr3, addr, t2, 2, r2);
        PatInherited(m0, s.mem, places, places', cr3, addr, t, r, t2, r2);
      }
    } else {
      FollowPointer(s.mem, places, cr3, addr, t, 3, r);
      t2 := e.frame;
    }
  }

  lemma SameAt(m0: Memory, m1: Memory, cr3: Pfn, addr: nat)
    requires SameTranslations(HOST, m0, m1, cr3) && InRange(HOST, addr)
    ensures Translate(HOST, m1, cr3, addr) == Translate(HOST, m0, cr3, addr)
  {
  }

  lemma SameOnlyIf(m0: Memory, m1: Memory, m2: Memory, cr3: Pfn)
    requires SameTranslations(HOST, m0, m1, cr3)
    ensures SameTranslations(HOST, m0, m2, cr3) <==> SameTranslations(HOST, m1, m2, cr3)
  {
    if SameTranslations(HOST, m0, m2, cr3) {
      forall a: nat | InRange(HOST, a) ensures Translate(HOST, m2, cr3, a) == Translate(HOST, m1, cr3, a) {
        assert Translate(HOST, m0, cr3, a) == Translate(HOST, m1, cr3, a);
      }
    }
  }

  /** Makes addr translate through a 4 KiB entry, splitting a 1 GiB and a 2 MiB page where needed. The
      result ok is false where an assertion of the code fails: addr is not mapped down to level 2, or no
      page is left. Otherwise every translation stays as it was, exactly unless addr was mapped by a large
      page with its PAT bit set. */
  method Force4kPage(s: Machine, cr3: Pfn, addr: nat, ghost places: Places) returns (ok: bool, ghost places': Places)
    requires s.Valid() && Separate(s.mem, s.free, places, 0)
    requires Tree(HOST, s.mem, places, cr3) && PlainRoot(s.mem, cr3, addr) && InRange(HOST, addr)
    requires Translate(HOST, s.mem, cr3, addr) != Misconfigured
    modifies s
    ensures s.Valid()
    ensures !ok ==> s.free == [] || Translate(HOST, old(s.mem), cr3, addr) == NotMapped
    ensures |old(s.free)| >= 2 && Translate(HOST, old(s.mem), cr3, addr) != NotMapped ==> ok
    ensures ok ==>
      && Separate(s.mem, s.free, places', 0)
      && Tree(HOST, s.mem, places', cr3) && PlainRoot(s.mem, cr3, addr)
      && Grown(old(s.mem), old(s.free), places, s.mem, s.free, places', 0, 2)
      && (SameTranslations(HOST, old(s.mem), s.mem, cr3) <==> !LargeWithPat(old(s.mem), cr3, addr))
      && exists n: Pfn :: SearchEnds(s.mem, cr3, addr, 1, n, Index(addr, 1), 1)
  {
    hide Grown, Separate, Tree, PlainRoot, LargeWithPat, SameTranslations, At, SearchEnds, Translate;
    ghost var t2, r2, r3;
    ok, t2, r2, places' := ForceAtLevel3(s, cr3, addr, places);
    if !ok {
      return;
    }
    ghost var m1, free1, places1 := s.mem, s.free, places';
    GrownCount(old(s.mem), old(s.free), places, m1, free1, places1, 1);
    SameAt(old(s.mem), m1, cr3, addr);
    var t, i, l;
    t, i, l, r3 := FindPteLevel(s, cr3, addr, 2, places');
    SearchAtLevel2(s.mem, places', cr3, addr, t2, r2, t, l);
    ok, places' := ForceAtLevel2(s, cr3, addr, t, r2, places');
    if ok {
      SameOnlyIf(old(s.mem), m1, s.mem, cr3);
      GrownTwice(old(s.mem), old(s.free), places, m1, free1, places1, 0, s.mem, s.free, places', 0, 1, 1);
    }
  }

  lemma TranslateInSlotUnlessTable(m: Memory, places: Places, cr3: Pfn, addr: nat, t: Pfn, l: Level, r: Rights)
    requires At(HOST, m, places, cr3, addr, t, l, r) && t in m && PlainRoot(m, cr3, addr)
    ensures var e := m[t][Index(addr, l)];
      && (!IsTable(e, l) ==> Translate(HOST, m, cr3, addr) == Resolve(e, l, addr, r))
      && (l == 4 && !IsTable(e, l) ==> Translate(HOST, m, cr3, addr) == NotMapped)
  {
    if !IsTable(m[t][Index(addr, l)], l) {
      TranslateInSlot(HOST, m, places, cr3, addr, t, l, r, addr);
    }
  }
}
