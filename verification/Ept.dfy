/** Extended page tables: splitting large entries, installing entries, mapping a range 1:1. */
module Ept {
  import opened PhysMem
  import opened Radix
  import opened PageAllocator
  import opened TableInstall

  const EPT_RA: bv12 := 1
  const EPT_WA: bv12 := 2
  const EPT_EA: bv12 := 4
  const EPT_PRESENT: bv12 := 7

  // ---- the entry format, after section 28.2.2 of the Intel SDM, vol. 3C ----

  predicate Present(e: Word) {
    e.lo & 7 != 0
  }

  predicate Large(e: Word) {
    e.lo & 0x80 != 0
  }

  /** A present entry at level l maps a page; otherwise it points to a table. */
  predicate IsLeaf(e: Word, l: Level) {
    l == 1 || ((l == 2 || l == 3) && Large(e))
  }

  /** The frame number relative to the page of level l that it lies in. */
  function PageOffset(p: nat, l: Level): nat {
    if l == 2 then p % 0x200 else if l == 3 then p % 0x4_0000 else 0
  }

  /** A present entry that raises an EPT misconfiguration: writable but not readable, a reserved bit
      set in a pointer to a table, or in a leaf a reserved memory type or a misaligned page. */
  predicate Faulty(e: Word, l: Level) {
    || e.lo & 3 == 2
    || (!IsLeaf(e, l) && e.lo & 0xF8 != 0)
    || (IsLeaf(e, l) && (e.lo & 0x38 == 0x10 || e.lo & 0x38 == 0x18 || e.lo & 0x38 == 0x38))
    || (IsLeaf(e, l) && PageOffset(e.frame, l) != 0)
  }

  predicate IsTable(e: Word, l: Level) {
    Present(e) && !IsLeaf(e, l) && !Faulty(e, l)
  }

  function Grants(e: Word): Rights {
    Rights(e.lo & 1 != 0, e.lo & 2 != 0, e.lo & 4 != 0, true)
  }

  /** Memory type and ignore-PAT in bits 6..3, suppress-#VE in bit 63. */
  function LeafAttributes(e: Word): Attributes {
    Attributes(e.hi & 0x800, e.lo & 0x78)
  }

  function Resolve(e: Word, l: Level, a: nat, acc: Rights): Outcome {
    if !Present(e) then NotMapped
    else if Faulty(e, l) then Misconfigured
    else Mapped(e.frame * 4096 + Offset(a, l), Meet(acc, Grants(e)), LeafAttributes(e))
  }

  const EPT: Format := Format(4, IsTable, Grants, Resolve)

  // ---- splitting a large entry ----

  /** Splits the large page at entry i of table t into 512 smaller ones. The result is the new table, or
      0 when there is no free page, which the code asserts not to happen. */
  method SplitLargeEptEntry(s: Machine, t: Pfn, i: nat, level: Level) returns (newPt: Pfn)
    requires s.Valid()
    requires t in s.mem && t !in s.free && i < ENTRIES
    requires Present(s.mem[t][i]) && Large(s.mem[t][i]) && (level == 2 || level == 3)
    modifies s
    ensures s.Valid()
    ensures newPt == 0 <==> old(s.free) == []
    ensures newPt == 0 ==> s.free == []
    ensures newPt != 0 ==> s.free == old(s.free)[1..] && newPt == old(s.free)[0] && newPt in old(s.mem)
    ensures newPt != 0 ==>
      var e := old(s.mem)[t][i];
      s.mem == Store(old(s.mem)[newPt := SplitPage(e, level)], t, i, SplitParent(e, newPt))
  {
    var pte := s.mem[t][i];
    assert s.free != [] ==> LinkedAt(s.mem, s.free, 0, 0);
    newPt := AllocPage(s);
    if newPt == 0 {
      return;
    }
    s.mem := s.mem[newPt := ZeroPage()];
    var prototype := pte.(frame := 0);
    if level == 2 {
      prototype := ClearLarge(prototype);
    }
    FillPage(s, newPt, prototype, pte.frame, level);
    s.mem := Store(s.mem, t, i, ClearLarge(pte).(frame := newPt));
    ThreadedElsewhere(old(s.mem), s.mem, s.freelist, s.free);
  }

  // ---- what splitting means ----

  /** A well-configured large leaf. */
  predicate LargeLeaf(e: Word, l: Level) {
    Present(e) && (l == 2 || l == 3) && Large(e) && !Faulty(e, l)
  }

  /** The leaf bits that are reserved in a pointer to a table: memory type and ignore-PAT. */
  predicate PlainMemoryType(e: Word) {
    e.lo & 0x78 == 0
  }

  lemma ChildFlags(e: Word, l: Level)
    requires LargeLeaf(e, l) && PlainMemoryType(e)
    ensures var lo := Prototype(e, l).lo;
      && lo & 7 == e.lo & 7 && lo & 3 != 2 && lo & 0x78 == 0
      && (l == 3 ==> lo & 0x80 != 0) && (l == 2 ==> lo & 0x80 == 0)
  {
  }

  lemma PartOfPage(f: Pfn, l: Level, j: nat)
    requires (l == 2 || l == 3) && PageOffset(f, l) == 0 && j < 512
    ensures f + PagesBefore(l, j) < FRAMES && PageOffset(f + PagesBefore(l, j), l - 1) == 0
  {
    if l == 2 {
      assert f == 512 * (f / 512);
    } else {
      var q := f / 0x4_0000;
      assert f == 0x4_0000 * q;
      assert f + 512 * j == 512 * (512 * q + j);
    }
  }

  lemma ChildFrame(e: Word, l: Level, j: nat)
    requires l == 2 || l == 3
    requires PageOffset(e.frame, l) == 0 && j < 512
    ensures var c := SplitPage(e, l)[j];
      && c == Word(e.hi, c.frame, Prototype(e, l).lo)
      && c.frame == e.frame + PagesBefore(l, j) && PageOffset(c.frame, l - 1) == 0
  {
    PartOfPage(e.frame, l, j);
  }

  lemma ChildKind(e: Word, l: Level, j: nat)
    requires LargeLeaf(e, l) && PlainMemoryType(e) && j < 512
    ensures var c := SplitPage(e, l)[j];
      && Present(c) && IsLeaf(c, l - 1) && !Faulty(c, l - 1)
      && Grants(c) == Grants(e) && PlainMemoryType(c)
      && LeafAttributes(c) == LeafAttributes(e)
  {
    ChildFlags(e, l);
    ChildFrame(e, l, j);
  }

  lemma ParentKind(e: Word, l: Level, n: Pfn)
    requires LargeLeaf(e, l)
    ensures var x := SplitParent(e, n);
      && Grants(x) == Grants(e) && x.frame == n
      && Present(x) && !IsLeaf(x, l)
      && (IsTable(x, l) <==> PlainMemoryType(e))
  {
  }

  lemma SplitMeaningAt(e: Word, l: Level, n: Pfn, a: nat, r: Rights)
    requires LargeLeaf(e, l) && PlainMemoryType(e)
    ensures SameMeaningAt(EPT, e, l, SplitParent(e, n), SplitPage(e, l), a, r)
  {
    var j := Index(a, l - 1);
    ChildKind(e, l, j);
    ChildFrame(e, l, j);
    ParentKind(e, l, n);
    OffsetStep(a, l);
  }

  /** What the hardware makes of address a at the entry that a split leaves behind. */
  ghost function AfterSplit(e: Word, l: Level, n: Pfn, a: nat, r: Rights): Outcome
    requires l == 2 || l == 3
  {
    var x := SplitParent(e, n);
    if IsTable(x, l) then Resolve(SplitPage(e, l)[Index(a, l - 1)], l - 1, a, Meet(r, Grants(x)))
    else Resolve(x, l, a, r)
  }

  /** Splitting a well-configured large page preserves the translation of every address exactly when
      the page's memory-type and ignore-PAT bits are clear: the split leaves those bits set in the
      entry that now points to a table, where they are reserved. */
  lemma SplitPreservesIff(e: Word, l: Level, n: Pfn, r: Rights)
    requires LargeLeaf(e, l)
    ensures (forall a: nat :: AfterSplit(e, l, n, a, r) == Resolve(e, l, a, r)) <==> PlainMemoryType(e)
  {
    ParentKind(e, l, n);
    if PlainMemoryType(e) {
      forall a: nat ensures AfterSplit(e, l, n, a, r) == Resolve(e, l, a, r) {
        SplitMeaningAt(e, l, n, a, r);
      }
    } else {
      assert AfterSplit(e, l, n, 0, r) == Misconfigured != Resolve(e, l, 0, r);
    }
  }

  // ---- walking down to install an entry ----

  const NO_RIGHTS := Rights(false, false, false, false)

  /** An install can follow or split entry e at level l, and e grants at least the rights in need. */
  predicate Passable(e: Word, l: Level, need: Rights) {
    || !Present(e)
    || (Meet(Grants(e), need) == need && (IsTable(e, l) || (LargeLeaf(e, l) && PlainMemoryType(e))))
  }

  /** On the way from table t at level l to level tl for address a, every entry is passable. */
  ghost predicate PathOk(m: Memory, t: Pfn, l: Level, a: nat, tl: Level, need: Rights)
    decreases l
  {
    l > tl ==>
      && t in m
      && var e := m[t][Index(a, l)];
         Passable(e, l, need) && (IsTable(e, l) ==> PathOk(m, e.frame, l - 1, a, tl, need))
  }

  /** What the present entries above level tl grant to address a; a missing table will be created with
      all rights. */
  ghost function RightsAbove(m: Memory, t: Pfn, l: Level, a: nat, tl: Level, acc: Rights): Rights
    decreases l
  {
    if l <= tl || t !in m then acc else
      var e := m[t][Index(a, l)];
      if !Present(e) then acc
      else if IsTable(e, l) && l > 1 then RightsAbove(m, e.frame, l - 1, a, tl, Meet(acc, Grants(e)))
      else Meet(acc, Grants(e))
  }

  ghost predicate PathsKept(m: Memory, m': Memory, root: Pfn) {
    forall a: nat, tl: Level, need: Rights :: InRange(EPT, a) && PathOk(m, root, 4, a, tl, need) ==>
      PathOk(m', root, 4, a, tl, need)
  }

  /** A change of entry i of table t does not affect paths outside its slot. */
  lemma {:induction false} PathElsewhere(m: Memory, m': Memory, places: Places, t: Pfn, i: nat,
                                         u: Pfn, l: Level, a: nat, tl: Level, need: Rights)
    requires AllTablesOk(EPT, m, places)
    requires t in places && i < ENTRIES && SameExcept(m, m', places, t, i)
    requires u in places && places[u].level == l && Covers(places[u], a)
    requires !InSlot(places[t], i, a)
    requires PathOk(m, u, l, a, tl, need)
    ensures PathOk(m', u, l, a, tl, need)
    decreases l
  {
    if l > tl {
      ChildFacts(EPT, m, places, u, l, a);
      assert SameEntry(m, m', t, i, u, Index(a, l));
      var e := m[u][Index(a, l)];
      if IsTable(e, l) {
        PathElsewhere(m, m', places, t, i, e.frame, l - 1, a, tl, need);
      }
    }
  }

  /** An entry that an install replaces by a table: nothing, or a large page. */
  ghost predicate Replaced(e: Word, l: Level, n: Pfn, x: Word, page: Page) {
    || (!Present(e) && x == TablePointer(n) && page == ZeroPage())
    || (LargeLeaf(e, l) && PlainMemoryType(e) && x == SplitParent(e, n) && page == SplitPage(e, l))
  }

  lemma ReplacedIsPassable(e: Word, l: Level, n: Pfn, x: Word, page: Page, j: nat, need: Rights)
    requires l > 1 && j < ENTRIES && Replaced(e, l, n, x, page) && Passable(e, l, need)
    ensures IsTable(x, l) && x.frame == n && Passable(x, l, need)
    ensures !IsTable(page[j], l - 1) && (l > 2 ==> Passable(page[j], l - 1, need))
  {
    if Present(e) {
      ParentKind(e, l, n);
      ChildKind(e, l, j);
    } else {
      TablePointerIsTable(n, l);
      assert page[j] == ZERO_WORD;
    }
  }

  lemma {:induction false} PathGrafted(m: Memory, m': Memory, places: Places, t: Pfn, i: nat, tlevel: Level,
                                       n: Pfn, x: Word, page: Page,
                                       u: Pfn, l: Level, a: nat, tl: Level, need: Rights)
    requires AllTablesOk(EPT, m, places) && n !in places
    requires t in places && places[t].level == tlevel && t in m && i < ENTRIES && tlevel > 1
    requires Replaced(m[t][i], tlevel, n, x, page)
    requires m' == Store(m[n := page], t, i, x) && SameExcept(m, m', places, t, i)
    requires u in places && places[u].level == l && Covers(places[u], a)
    requires PathOk(m, u, l, a, tl, need)
    ensures PathOk(m', u, l, a, tl, need)
    decreases l
  {
    if l > tl {
      var j := Index(a, l);
      ChildFacts(EPT, m, places, u, l, a);
      var e := m[u][j];
      if u == t && j == i {
        ReplacedIsPassable(e, l, n, x, page, Index(a, l - 1), need);
        assert m'[n] == page;
      } else {
        assert SameEntry(m, m', t, i, u, j);
        if IsTable(e, l) {
          PathGrafted(m, m', places, t, i, tlevel, n, x, page, e.frame, l - 1, a, tl, need);
        }
      }
    }
  }

  lemma GraftKeepsPaths(m: Memory, m': Memory, places: Places, root: Pfn, t: Pfn, i: nat, l: Level,
                        n: Pfn, x: Word, page: Page)
    requires Tree(EPT, m, places, root) && n !in places
    requires t in places && places[t].level == l && t in m && i < ENTRIES && l > 1
    requires Replaced(m[t][i], l, n, x, page)
    requires m' == Store(m[n := page], t, i, x) && SameExcept(m, m', places, t, i)
    ensures PathsKept(m, m', root)
  {
    forall a: nat, tl: Level, need: Rights | InRange(EPT, a) && PathOk(m, root, 4, a, tl, need)
      ensures PathOk(m', root, 4, a, tl, need)
    {
      PathGrafted(m, m', places, t, i, l, n, x, page, root, 4, a, tl, need);
    }
  }

  ghost predicate PathsKeptElsewhere(m: Memory, m': Memory, root: Pfn, l: Level, c: nat) {
    forall a: nat, tl: Level, need: Rights ::
      InRange(EPT, a) && Prefix(a, l) != Prefix(c, l) && PathOk(m, root, 4, a, tl, need) ==>
        PathOk(m', root, 4, a, tl, need)
  }

  lemma SetEntryKeepsPaths(m: Memory, m': Memory, places: Places, root: Pfn, c: nat, t: Pfn, l: Level, e: Word)
    requires Tree(EPT, m, places, root)
    requires t in places && places[t] == Place(l, Prefix(c, l + 1)) && t in m
    requires m' == Store(m, t, Index(c, l), e)
    ensures PathsKeptElsewhere(m, m', root, l, c)
  {
    SameAfterStore(EPT, m, m', places, t, Index(c, l), e);
    PrefixIndex(c, l);
    forall a: nat, tl: Level, need: Rights |
      InRange(EPT, a) && Prefix(a, l) != Prefix(c, l) && PathOk(m, root, 4, a, tl, need)
      ensures PathOk(m', root, 4, a, tl, need)
    {
      PathElsewhere(m, m', places, t, Index(c, l), root, 4, a, tl, need);
    }
  }

  /** An install of address a at level tl has reached table t at level l. */
  ghost predicate Position(m: Memory, places: Places, root: Pfn, a: nat, tl: Level, t: Pfn, l: Level, r: Rights) {
    && Tree(EPT, m, places, root) && InRange(EPT, a) && t in m
    && At(EPT, m, places, root, a, t, l, r)
    && PathOk(m, t, l, a, tl, NO_RIGHTS)
  }

  /** From m to m' the translation changes exactly for the addresses in the page of level l around c: for
      them the walk ends at e, below the rights that the entries above granted in m. */
  ghost predicate Installed(m: Memory, m': Memory, root: Pfn, l: Level, c: nat, e: Word) {
    forall a: nat :: InRange(EPT, a) ==>
      (Translate(EPT, m', root, a) ==
       if Prefix(a, l) == Prefix(c, l) then Resolve(e, l, a, RightsAbove(m, root, 4, c, l, ALL_RIGHTS))
       else Translate(EPT, m, root, a))
  }

  function TablePointer(n: Pfn): Word {
    Word(0, n, EPT_RA | EPT_WA | EPT_EA)
  }

  lemma TablePointerIsTable(n: Pfn, l: Level)
    requires l > 1
    ensures var x := TablePointer(n); Present(x) && IsTable(x, l) && Grants(x) == ALL_RIGHTS
  {
  }

  /** A missing table is created empty. */
  lemma DescendAbsent(m: Memory, m': Memory, places: Places, root: Pfn, a: nat, tl: Level, t: Pfn, l: Level, r: Rights, n: Pfn)
    requires Position(m, places, root, a, tl, t, l, r) && l > tl
    requires n !in places && !Present(m[t][Index(a, l)])
    requires m' == Store(m[n := ZeroPage()], t, Index(a, l), TablePointer(n))
    ensures Position(m', places[n := Place(l - 1, Prefix(a, l))], root, a, tl, n, l - 1, r)
    ensures SameTranslations(EPT, m, m', root) && PathsKept(m, m', root)
    ensures RightsAbove(m', n, l - 1, a, tl, r) == RightsAbove(m, t, l, a, tl, r)
  {
    var x := TablePointer(n);
    TablePointerIsTable(n, l);
    assert ZeroPage()[Index(a, l - 1)] == ZERO_WORD;
    assert NoTables(EPT, ZeroPage(), l - 1);
    assert SameMeaning(EPT, m[t][Index(a, l)], l, x, ZeroPage());
    SameAfterGraft(EPT, m, m', places, t, Index(a, l), l, n, x, ZeroPage());
    GraftKeepsPaths(m, m', places, root, t, Index(a, l), l, n, x, ZeroPage());
    Graft(EPT, m, m', places, root, a, t, l, r, n, x, ZeroPage());
    assert m'[n] == ZeroPage();
  }

  /** A large page is split. */
  lemma DescendSplit(m: Memory, m': Memory, places: Places, root: Pfn, a: nat, tl: Level, t: Pfn, l: Level, r: Rights, n: Pfn)
    requires Position(m, places, root, a, tl, t, l, r) && l > tl
    requires n !in places && LargeLeaf(m[t][Index(a, l)], l)
    requires m' == Store(m[n := SplitPage(m[t][Index(a, l)], l)], t, Index(a, l), SplitParent(m[t][Index(a, l)], n))
    ensures var r' := Meet(r, Grants(m[t][Index(a, l)]));
      && Position(m', places[n := Place(l - 1, Prefix(a, l))], root, a, tl, n, l - 1, r')
      && RightsAbove(m', n, l - 1, a, tl, r') == RightsAbove(m, t, l, a, tl, r)
    ensures SameTranslations(EPT, m, m', root) && PathsKept(m, m', root)
  {
    var e := m[t][Index(a, l)];
    var x, page := SplitParent(e, n), SplitPage(e, l);
    assert PlainMemoryType(e);
    ParentKind(e, l, n);
    forall j: nat | j < ENTRIES ensures !(EPT.isTable(page[j], l - 1) && l - 1 > 1) {
      ChildKind(e, l, j);
    }
    forall b: nat, q: Rights ensures SameMeaningAt(EPT, e, l, x, page, b, q) {
      SplitMeaningAt(e, l, n, b, q);
    }
    SameAfterGraft(EPT, m, m', places, t, Index(a, l), l, n, x, page);
    GraftKeepsPaths(m, m', places, root, t, Index(a, l), l, n, x, page);
    Graft(EPT, m, m', places, root, a, t, l, r, n, x, page);
    assert m'[n] == page;
    ChildKind(e, l, Index(a, l - 1));
  }

  /** An existing table is followed. */
  lemma DescendTable(m: Memory, places: Places, root: Pfn, a: nat, tl: Level, t: Pfn, l: Level, r: Rights)
    requires Position(m, places, root, a, tl, t, l, r) && l > tl
    requires Present(m[t][Index(a, l)]) && !LargeLeaf(m[t][Index(a, l)], l)
    ensures var e := m[t][Index(a, l)]; var r' := Meet(r, Grants(e));
      && Position(m, places, root, a, tl, e.frame, l - 1, r')
      && RightsAbove(m, e.frame, l - 1, a, tl, r') == RightsAbove(m, t, l, a, tl, r)
  {
    ChildFacts(EPT, m, places, t, l, a);
    ReachesChild(EPT, m, root, EPT.top, a, ALL_RIGHTS, t, l, r);
    var e := m[t][Index(a, l)];
    SlotFacts(places[t], Index(a, l), a);
    assert TableOk(EPT, m, places, t);
    assert EntryOk(EPT, e, places, places[t], Index(a, l));
    assert TableOk(EPT, m, places, e.frame);
    PrefixIndex(a, l);
  }

  /** One turn of the loop of InstallEptEntry: makes sure that the entry for guestAddr in table pt points
      to a table, and follows it. The result ok is false when no page is left for a new table: the code
      goes no further then. */
  method StepDown(s: Machine, pt: Pfn, level: Level, below: Level, guestAddr: nat, ptPage: Pfn,
                  ghost places: Places, ghost root: Pfn, ghost tl: Level, ghost r: Rights)
    returns (ok: bool, next: Pfn, ptPage': Pfn, ghost places': Places, ghost r': Rights)
    requires s.Valid() && below == level - 1
    requires Separate(s.mem, s.free, places, ptPage)
    requires Position(s.mem, places, root, guestAddr, tl, pt, level, r) && level > tl
    modifies s
    ensures s.Valid()
    ensures !ok ==> s.free == []
    ensures old(s.free) != [] ==> ok
    ensures ok ==>
      && (ptPage' == 0 || ptPage' == ptPage)
      && Separate(s.mem, s.free, places', ptPage')
      && Position(s.mem, places', root, guestAddr, tl, next, below, r')
      && SameTranslations(EPT, old(s.mem), s.mem, root)
      && PathsKept(old(s.mem), s.mem, root)
      && RightsAbove(s.mem, next, below, guestAddr, tl, r') ==
           RightsAbove(old(s.mem), pt, level, guestAddr, tl, r)
      && Grown(old(s.mem), old(s.free), places, s.mem, s.free, places', ptPage, 1)
  {
    var offset := Index(guestAddr, level);
    var e := s.mem[pt][offset];
    ok, next, ptPage', places', r' := true, 0, ptPage, places, r;
    assert pt !in s.free;
    if !Present(e) {
      var newPt := ptPage;
      if newPt == 0 {
        assert s.free != [] ==> LinkedAt(s.mem, s.free, 0, 0);
        newPt := AllocPage(s);
        if newPt == 0 {
          ok := false;
          return;
        }
      } else {
        ptPage' := 0;
      }
      s.mem := s.mem[newPt := ZeroPage()];
      s.mem := Store(s.mem, pt, offset, TablePointer(newPt));
      places' := places[newPt := Place(level - 1, Prefix(guestAddr, level))];
      GrownByOne(old(s.mem), old(s.free), places, s.mem, s.free, ptPage, ptPage', newPt, ZeroPage(),
        places'[newPt], pt, offset, TablePointer(newPt));
      ThreadedElsewhere(old(s.mem), s.mem, s.freelist, s.free);
      DescendAbsent(old(s.mem), s.mem, places, root, guestAddr, tl, pt, level, r, newPt);
    } else if Large(e) {
      var newPt := SplitLargeEptEntry(s, pt, offset, level);
      if newPt == 0 {
        ok := false;
        return;
      }
      places' := places[newPt := Place(level - 1, Prefix(guestAddr, level))];
      r' := Meet(r, Grants(e));
      GrownByOne(old(s.mem), old(s.free), places, s.mem, s.free, ptPage, ptPage', newPt, SplitPage(e, level),
        places'[newPt], pt, offset, SplitParent(e, newPt));
      DescendSplit(old(s.mem), s.mem, places, root, guestAddr, tl, pt, level, r, newPt);
    } else {
      DescendTable(s.mem, places, root, guestAddr, tl, pt, level, r);
      r' := Meet(r, Grants(e));
    }
    next := s.mem[pt][offset].frame;
  }

  lemma StartDown(m: Memory, free: seq<Pfn>, places: Places, root: Pfn, a: nat, tl: Level, ptPage: Pfn)
    requires Tree(EPT, m, places, root) && InRange(EPT, a) && PathOk(m, root, 4, a, tl, NO_RIGHTS)
    requires Separate(m, free, places, ptPage)
    ensures Position(m, places, root, a, tl, root, 4, ALL_RIGHTS)
    ensures SameTranslations(EPT, m, m, root) && PathsKept(m, m, root)
    ensures Grown(m, free, places, m, free, places, ptPage, 0)
  {
    assert TableOk(EPT, m, places, root);
  }

  lemma EndDown(m: Memory, free: seq<Pfn>, places: Places, ptPage: Pfn, t: Pfn, a: nat, tl: Level, r: Rights)
    requires Separate(m, free, places, ptPage)
    ensures Separate(m, free, places, 0)
    ensures RightsAbove(m, t, tl, a, tl, r) == r
  {
  }

  lemma StepFurther(m0: Memory, m1: Memory, m2: Memory, root: Pfn)
    requires SameTranslations(EPT, m0, m1, root) && SameTranslations(EPT, m1, m2, root)
    requires PathsKept(m0, m1, root) && PathsKept(m1, m2, root)
    ensures SameTranslations(EPT, m0, m2, root) && PathsKept(m0, m2, root)
  {
  }

  /** The loop of InstallEptEntry: the table for guestAddr at level tl. */
  method WalkDown(s: Machine, pml4: Pfn, tl: Level, guestAddr: nat, ptPage: Pfn, ghost places: Places)
    returns (ok: bool, pt: Pfn, ghost places': Places, ghost r: Rights)
    requires s.Valid() && Separate(s.mem, s.free, places, ptPage)
    requires Tree(EPT, s.mem, places, pml4)
    requires InRange(EPT, guestAddr)
    requires PathOk(s.mem, pml4, 4, guestAddr, tl, NO_RIGHTS)
    modifies s
    ensures s.Valid()
    ensures !ok ==> s.free == []
    ensures |old(s.free)| >= 4 - tl ==> ok
    ensures ok ==>
      && Separate(s.mem, s.free, places', 0)
      && Position(s.mem, places', pml4, guestAddr, tl, pt, tl, r)
      && SameTranslations(EPT, old(s.mem), s.mem, pml4)
      && PathsKept(old(s.mem), s.mem, pml4)
      && r == RightsAbove(old(s.mem), pml4, 4, guestAddr, tl, ALL_RIGHTS)
      && Grown(old(s.mem), old(s.free), places, s.mem, s.free, places', ptPage, 4 - tl)
  {
    hide Position, SameTranslations, PathsKept, RightsAbove, PathOk, Grown, Separate, Tree;
    var level: Level := 4;
    ok, pt := true, pml4;
    var page := ptPage;
    r := ALL_RIGHTS;
    places' := places;
    StartDown(s.mem, s.free, places, pml4, guestAddr, tl, ptPage);
    while level > tl
      invariant tl <= level
      invariant s.Valid() && (page == 0 || page == ptPage) && Separate(s.mem, s.free, places', page)
      invariant Position(s.mem, places', pml4, guestAddr, tl, pt, level, r)
      invariant SameTranslations(EPT, old(s.mem), s.mem, pml4)
      invariant PathsKept(old(s.mem), s.mem, pml4)
      invariant RightsAbove(s.mem, pt, level, guestAddr, tl, r) ==
        RightsAbove(old(s.mem), pml4, 4, guestAddr, tl, ALL_RIGHTS)
      invariant Grown(old(s.mem), old(s.free), places, s.mem, s.free, places', ptPage, 4 - level)
      invariant |old(s.free)| <= |s.free| + 4 - level
    {
      var below: Level := level - 1;
      ghost var m1, free1, places1, page1 := s.mem, s.free, places', page;
      ok, pt, page, places', r := StepDown(s, pt, level, below, guestAddr, page, places', pml4, tl, r);
      if !ok {
        return;
      }
      StepFurther(old(s.mem), m1, s.mem, pml4);
      GrownTwice(old(s.mem), old(s.free), places, m1, free1, places1, page1, s.mem, s.free, places', ptPage, 4 - level, 1);
      level := below;
    }
    EndDown(s.mem, s.free, places', page, pt, guestAddr, tl, r);
  }

  lemma FinishInstall(m0: Memory, m1: Memory, m2: Memory, places: Places, root: Pfn, c: nat, t: Pfn, l: Level,
                      r: Rights, e: Word)
    requires Position(m1, places, root, c, l, t, l, r)
    requires SameTranslations(EPT, m0, m1, root) && PathsKept(m0, m1, root)
    requires r == RightsAbove(m0, root, 4, c, l, ALL_RIGHTS)
    requires m2 == Store(m1, t, Index(c, l), e) && !(IsTable(e, l) && l > 1)
    ensures Tree(EPT, m2, places, root)
    ensures Installed(m0, m2, root, l, c, e) && PathsKeptElsewhere(m0, m2, root, l, c)
  {
    SetEntry(EPT, m1, m2, places, root, c, t, l, r, e);
    SetEntryKeepsPaths(m1, m2, places, root, c, t, l, e);
  }

  /** Installs pte for guestAddr in the table at level pteLevel. ptPage is a page for the first missing
      table, or 0. */
  method InstallEptEntry(s: Machine, pml4: Pfn, pteLevel: Level, guestAddr: nat, pte: Word, ptPage: Pfn,
                         ghost places: Places)
    returns (ok: bool, ghost places': Places)
    requires s.Valid() && Separate(s.mem, s.free, places, ptPage)
    requires Tree(EPT, s.mem, places, pml4)
    requires guestAddr < 0x1_0000_0000_0000
    requires PathOk(s.mem, pml4, 4, guestAddr, pteLevel, NO_RIGHTS)
    requires !(IsTable(pte, pteLevel) && pteLevel > 1)
    modifies s
    ensures s.Valid()
    ensures !ok ==> s.free == []
    ensures |old(s.free)| >= 4 - pteLevel ==> ok
    ensures ok ==>
      && Separate(s.mem, s.free, places', 0)
      && Tree(EPT, s.mem, places', pml4)
      && Installed(old(s.mem), s.mem, pml4, pteLevel, guestAddr, pte)
      && PathsKeptElsewhere(old(s.mem), s.mem, pml4, pteLevel, guestAddr)
      && Grown(old(s.mem), old(s.free), places, s.mem, s.free, places', ptPage, 4 - pteLevel)
  {
    var pt;
    ghost var r;
    ok, pt, places', r := WalkDown(s, pml4, pteLevel, guestAddr, ptPage, places);
    if !ok {
      return;
    }
    ghost var before := s.mem;
    s.mem := Store(s.mem, pt, Index(guestAddr, pteLevel), pte);
    WriteInTable(old(s.mem), old(s.free), places, before, s.free, places', ptPage, 4 - pteLevel, s.freelist,
      pt, Index(guestAddr, pteLevel), pte, s.mem);
    FinishInstall(old(s.mem), before, s.mem, places', pml4, guestAddr, pt, pteLevel, r, pte);
  }
}
