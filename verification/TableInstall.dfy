/** Installing entries in radix tables: what the code that creates missing tables keeps, whatever the
    entry format, and the install loop of the formats that never split a page. */
module TableInstall {
  import opened PhysMem
  import opened Radix
  import opened PageAllocator

  ghost predicate SameTranslations(f: Format, m: Memory, m': Memory, root: Pfn) {
    forall a: nat :: InRange(f, a) ==> Translate(f, m', root, a) == Translate(f, m, root, a)
  }

  /** The tables, the free pages and a page given by the caller are all different. */
  ghost predicate Separate(m: Memory, free: seq<Pfn>, places: Places, ptPage: Pfn) {
    && (forall f :: f in free ==> f !in places)
    && (ptPage != 0 ==> ptPage in m && ptPage !in places && ptPage !in free)
  }

  /** From (m, free, places) to (m', free', places') at most n tables were created, on pages from the
      front of the free list or on the page given by the caller, and no other page was touched. */
  ghost predicate Grown(m: Memory, free: seq<Pfn>, places: Places, m': Memory, free': seq<Pfn>, places': Places,
                        ptPage: Pfn, n: nat) {
    && m'.Keys == m.Keys
    && |free'| <= |free| <= |free'| + n
    && free' == free[|free| - |free'|..]
    && (forall t :: t in places ==> t in places' && places'[t] == places[t])
    && (forall t :: t in places' && t !in places ==>
         (t in free && t !in free') || (t == ptPage && ptPage != 0))
    && (forall t :: t in free && t !in free' ==> t in places')
    && (forall f :: f in m && f !in places' ==> m'[f] == m[f])
  }

  lemma GrownByOne(m: Memory, free: seq<Pfn>, places: Places, m': Memory, free': seq<Pfn>, ptPage: Pfn, ptPage': Pfn,
                   n: Pfn, page: Page, at: Place, t: Pfn, i: nat, x: Word)
    requires NoDuplicates(free) && Separate(m, free, places, ptPage)
    requires t in places && t in m && i < ENTRIES && n in m
    requires m' == Store(m[n := page], t, i, x)
    requires
      || (free != [] && n == free[0] && free' == free[1..] && ptPage' == ptPage)
      || (ptPage != 0 && n == ptPage && free' == free && ptPage' == 0)
    ensures n !in places
    ensures Separate(m', free', places[n := at], ptPage')
    ensures Grown(m, free, places, m', free', places[n := at], ptPage, 1)
  {
    assert free != [] ==> free == [free[0]] + free[1..];
  }

  lemma GrownTwice(m: Memory, free: seq<Pfn>, places: Places, m1: Memory, free1: seq<Pfn>, places1: Places, page1: Pfn,
                   m2: Memory, free2: seq<Pfn>, places2: Places, ptPage: Pfn, n1: nat, n2: nat)
    requires Grown(m, free, places, m1, free1, places1, ptPage, n1)
    requires Grown(m1, free1, places1, m2, free2, places2, page1, n2)
    requires page1 == 0 || page1 == ptPage
    ensures Grown(m, free, places, m2, free2, places2, ptPage, n1 + n2) && |free1| <= |free2| + n2
  {
    assert free2 == free[|free| - |free2|..];
    assert forall f :: f in free1 ==> f in free;
  }

  lemma WriteInTable(m0: Memory, free0: seq<Pfn>, places0: Places, m1: Memory, free: seq<Pfn>, places: Places,
                     ptPage: Pfn, n: nat, head: nat, t: Pfn, i: nat, e: Word, m2: Memory)
    requires t in places && t in m1 && i < ENTRIES && m2 == Store(m1, t, i, e)
    requires Separate(m1, free, places, 0) && Threaded(m1, head, free)
    requires Grown(m0, free0, places0, m1, free, places, ptPage, n)
    ensures Separate(m2, free, places, 0) && Threaded(m2, head, free)
    ensures Grown(m0, free0, places0, m2, free, places, ptPage, n)
  {
    ThreadedElsewhere(m1, m2, head, free);
  }

  // ---- formats and software ----

  /** How the code sees and links tables: its test for a present entry and its pointer to a new table. */
  datatype Linkage = Linkage(present: Word -> bool, pointer: Pfn -> Word)

  /** The code's view agrees with the hardware's. */
  ghost predicate Agrees(f: Format, k: Linkage) {
    && f.top > 1
    && (forall e: Word, l: Level :: f.isTable(e, l) ==> k.present(e))
    && (forall e: Word, l: Level, a: nat, r: Rights :: !k.present(e) ==> f.resolve(e, l, a, r) == NotMapped)
    && (forall n: Pfn, l: Level :: l > 1 ==> f.isTable(k.pointer(n), l))
    && (forall n: Pfn :: k.pointer(n).frame == n && f.grants(k.pointer(n)) == ALL_RIGHTS)
    && !k.present(ZERO_WORD)
  }

  /** On the way from table t at level l to level tl every entry is absent or a table: no large page is
      in the way. */
  ghost predicate OpenPath(f: Format, k: Linkage, m: Memory, t: Pfn, l: Level, a: nat, tl: Level)
    decreases l
  {
    l > tl ==>
      && t in m
      && var e := m[t][Index(a, l)];
         !k.present(e) || (f.isTable(e, l) && OpenPath(f, k, m, e.frame, l - 1, a, tl))
  }

  /** What the tables above level tl grant to address a; a missing table will be created with all
      rights. */
  ghost function Granted(f: Format, m: Memory, t: Pfn, l: Level, a: nat, tl: Level, acc: Rights): Rights
    decreases l
  {
    if l <= tl || t !in m then acc else
      var e := m[t][Index(a, l)];
      if f.isTable(e, l) then Granted(f, m, e.frame, l - 1, a, tl, Meet(acc, f.grants(e))) else acc
  }

  ghost predicate Located(f: Format, k: Linkage, m: Memory, places: Places, root: Pfn, a: nat, tl: Level,
                          t: Pfn, l: Level, r: Rights) {
    && Tree(f, m, places, root) && InRange(f, a) && t in m
    && At(f, m, places, root, a, t, l, r)
    && OpenPath(f, k, m, t, l, a, tl)
  }

  /** The path stays open and grants what it granted. */
  ghost predicate PathKept(f: Format, k: Linkage, m: Memory, m': Memory, root: Pfn, a: nat, tl: Level) {
    && OpenPath(f, k, m', root, f.top, a, tl)
    && Granted(f, m', root, f.top, a, tl, ALL_RIGHTS) == Granted(f, m, root, f.top, a, tl, ALL_RIGHTS)
  }

  ghost predicate OpenPathsKept(f: Format, k: Linkage, m: Memory, m': Memory, root: Pfn) {
    forall a: nat, tl: Level :: InRange(f, a) && OpenPath(f, k, m, root, f.top, a, tl) ==>
      PathKept(f, k, m, m', root, a, tl)
  }

  lemma {:induction false} OpenPathGrafted(f: Format, k: Linkage, m: Memory, m': Memory, places: Places, t: Pfn, i: nat,
                                           lt: Level, n: Pfn, u: Pfn, l: Level, a: nat, tl: Level, acc: Rights)
    requires Agrees(f, k) && AllTablesOk(f, m, places) && n !in places
    requires t in places && places[t].level == lt && t in m && i < ENTRIES && lt > 1
    requires !k.present(m[t][i])
    requires m' == Store(m[n := ZeroPage()], t, i, k.pointer(n)) && SameExcept(m, m', places, t, i)
    requires u in places && places[u].level == l && Covers(places[u], a)
    requires OpenPath(f, k, m, u, l, a, tl)
    ensures OpenPath(f, k, m', u, l, a, tl)
    ensures Granted(f, m', u, l, a, tl, acc) == Granted(f, m, u, l, a, tl, acc)
    decreases l
  {
    if l > tl {
      var j := Index(a, l);
      ChildFacts(f, m, places, u, l, a);
      var e := m[u][j];
      if u == t && j == i {
        assert m'[n] == ZeroPage();
      } else {
        assert SameEntry(m, m', t, i, u, j);
        if k.present(e) {
          OpenPathGrafted(f, k, m, m', places, t, i, lt, n, e.frame, l - 1, a, tl, Meet(acc, f.grants(e)));
        }
      }
    }
  }

  /** Writing an entry in a table at level lt or below does not matter to paths that end there. */
  lemma {:induction false} OpenPathStable(f: Format, k: Linkage, m: Memory, m': Memory, places: Places, t: Pfn, i: nat,
                                          u: Pfn, l: Level, a: nat, tl: Level, acc: Rights)
    requires Agrees(f, k) && AllTablesOk(f, m, places)
    requires t in places && places[t].level <= tl && i < ENTRIES && SameExcept(m, m', places, t, i)
    requires u in places && places[u].level == l && Covers(places[u], a)
    requires OpenPath(f, k, m, u, l, a, tl)
    ensures OpenPath(f, k, m', u, l, a, tl)
    ensures Granted(f, m', u, l, a, tl, acc) == Granted(f, m, u, l, a, tl, acc)
    decreases l
  {
    if l > tl {
      ChildFacts(f, m, places, u, l, a);
      assert SameEntry(m, m', t, i, u, Index(a, l));
      var e := m[u][Index(a, l)];
      if k.present(e) {
        OpenPathStable(f, k, m, m', places, t, i, e.frame, l - 1, a, tl, Meet(acc, f.grants(e)));
      }
    }
  }

  lemma {:induction false} OpenPathSameTables(f: Format, k: Linkage, m: Memory, m': Memory, places: Places,
                                              u: Pfn, l: Level, a: nat, tl: Level, acc: Rights)
    requires Agrees(f, k) && AllTablesOk(f, m, places) && SameTables(m, m', places)
    requires u in places && places[u].level == l && Covers(places[u], a)
    requires OpenPath(f, k, m, u, l, a, tl)
    ensures OpenPath(f, k, m', u, l, a, tl)
    ensures Granted(f, m', u, l, a, tl, acc) == Granted(f, m, u, l, a, tl, acc)
    decreases l
  {
    if l > tl {
      ChildFacts(f, m, places, u, l, a);
      var e := m[u][Index(a, l)];
      if k.present(e) {
        OpenPathSameTables(f, k, m, m', places, e.frame, l - 1, a, tl, Meet(acc, f.grants(e)));
      }
    }
  }

  lemma GraftKeepsOpenPaths(f: Format, k: Linkage, m: Memory, m': Memory, places: Places, root: Pfn, t: Pfn, i: nat,
                            lt: Level, n: Pfn)
    requires Agrees(f, k) && Tree(f, m, places, root) && n !in places
    requires t in places && places[t].level == lt && t in m && i < ENTRIES && lt > 1
    requires !k.present(m[t][i])
    requires m' == Store(m[n := ZeroPage()], t, i, k.pointer(n)) && SameExcept(m, m', places, t, i)
    ensures OpenPathsKept(f, k, m, m', root)
  {
    forall a: nat, tl: Level | InRange(f, a) && OpenPath(f, k, m, root, f.top, a, tl)
      ensures PathKept(f, k, m, m', root, a, tl)
    {
      OpenPathGrafted(f, k, m, m', places, t, i, lt, n, root, f.top, a, tl, ALL_RIGHTS);
    }
  }

  /** A missing table is created empty. */
  lemma CreateTable(f: Format, k: Linkage, m: Memory, m': Memory, places: Places, root: Pfn, a: nat, tl: Level,
                    t: Pfn, l: Level, r: Rights, n: Pfn)
    requires Agrees(f, k) && Located(f, k, m, places, root, a, tl, t, l, r) && l > tl
    requires n !in places && !k.present(m[t][Index(a, l)])
    requires m' == Store(m[n := ZeroPage()], t, Index(a, l), k.pointer(n))
    ensures Located(f, k, m', places[n := Place(l - 1, Prefix(a, l))], root, a, tl, n, l - 1, r)
    ensures SameTranslations(f, m, m', root) && OpenPathsKept(f, k, m, m', root)
    ensures Granted(f, m', n, l - 1, a, tl, r) == Granted(f, m, t, l, a, tl, r)
  {
    var x := k.pointer(n);
    forall j: nat | j < ENTRIES ensures !(f.isTable(ZeroPage()[j], l - 1) && l - 1 > 1) {
      assert ZeroPage()[j] == ZERO_WORD;
    }
    forall b: nat, q: Rights ensures SameMeaningAt(f, m[t][Index(a, l)], l, x, ZeroPage(), b, q) {
      assert ZeroPage()[Index(b, l - 1)] == ZERO_WORD;
    }
    SameAfterGraft(f, m, m', places, t, Index(a, l), l, n, x, ZeroPage());
    GraftKeepsOpenPaths(f, k, m, m', places, root, t, Index(a, l), l, n);
    Graft(f, m, m', places, root, a, t, l, r, n, x, ZeroPage());
    assert m'[n] == ZeroPage();
    assert ZeroPage()[Index(a, l - 1)] == ZERO_WORD;
  }

  /** An existing table is followed. */
  lemma FollowTable(f: Format, k: Linkage, m: Memory, places: Places, root: Pfn, a: nat, tl: Level,
                    t: Pfn, l: Level, r: Rights)
    requires Located(f, k, m, places, root, a, tl, t, l, r) && l > tl
    requires k.present(m[t][Index(a, l)])
    ensures var e := m[t][Index(a, l)]; var r' := Meet(r, f.grants(e));
      && Located(f, k, m, places, root, a, tl, e.frame, l - 1, r')
      && Granted(f, m, e.frame, l - 1, a, tl, r') == Granted(f, m, t, l, a, tl, r)
  {
    ChildFacts(f, m, places, t, l, a);
    ReachesChild(f, m, root, f.top, a, ALL_RIGHTS, t, l, r);
    var e := m[t][Index(a, l)];
    assert TableOk(f, m, places, t);
    assert EntryOk(f, e, places, places[t], Index(a, l));
    assert TableOk(f, m, places, e.frame);
    PrefixIndex(a, l);
  }

  // ---- the install loop ----

  lemma StartAtRoot(f: Format, k: Linkage, m: Memory, free: seq<Pfn>, places: Places, root: Pfn, a: nat, tl: Level, ptPage: Pfn)
    requires Tree(f, m, places, root) && InRange(f, a) && OpenPath(f, k, m, root, f.top, a, tl)
    requires Separate(m, free, places, ptPage)
    ensures Located(f, k, m, places, root, a, tl, root, f.top, ALL_RIGHTS)
    ensures SameTranslations(f, m, m, root) && OpenPathsKept(f, k, m, m, root)
    ensures Grown(m, free, places, m, free, places, ptPage, 0)
  {
    assert TableOk(f, m, places, root);
  }

  lemma StopAtTable(f: Format, m: Memory, free: seq<Pfn>, places: Places, ptPage: Pfn, t: Pfn, a: nat, tl: Level, r: Rights)
    requires Separate(m, free, places, ptPage)
    ensures Separate(m, free, places, 0)
    ensures Granted(f, m, t, tl, a, tl, r) == r
  {
  }

  lemma GoOn(f: Format, k: Linkage, m0: Memory, m1: Memory, m2: Memory, root: Pfn)
    requires SameTranslations(f, m0, m1, root) && SameTranslations(f, m1, m2, root)
    requires OpenPathsKept(f, k, m0, m1, root) && OpenPathsKept(f, k, m1, m2, root)
    ensures SameTranslations(f, m0, m2, root) && OpenPathsKept(f, k, m0, m2, root)
  {
  }

  /** One turn of the install loop: makes sure that the entry for a in table pt points to a table, and
      follows it. The result ok is false when no page is left for a new table: the code goes no further
      then. */
  method StepDown(s: Machine, f: Format, k: Linkage, pt: Pfn, level: Level, below: Level, a: nat, ptPage: Pfn,
                  ghost places: Places, ghost root: Pfn, ghost tl: Level, ghost r: Rights)
    returns (ok: bool, next: Pfn, ptPage': Pfn, ghost places': Places, ghost r': Rights)
    requires s.Valid() && Agrees(f, k) && below == level - 1
    requires Separate(s.mem, s.free, places, ptPage)
    requires Located(f, k, s.mem, places, root, a, tl, pt, level, r) && level > tl
    modifies s
    ensures s.Valid()
    ensures !ok ==> s.free == []
    ensures old(s.free) != [] ==> ok
    ensures ok ==>
      && (ptPage' == 0 || ptPage' == ptPage)
      && Separate(s.mem, s.free, places', ptPage')
      && Located(f, k, s.mem, places', root, a, tl, next, below, r')
      && SameTranslations(f, old(s.mem), s.mem, root)
      && OpenPathsKept(f, k, old(s.mem), s.mem, root)
      && Granted(f, s.mem, next, below, a, tl, r') == Granted(f, old(s.mem), pt, level, a, tl, r)
      && Grown(old(s.mem), old(s.free), places, s.mem, s.free, places', ptPage, 1)
  {
    var offset := Index(a, level);
    var e := s.mem[pt][offset];
    ok, next, ptPage', places', r' := true, 0, ptPage, places, r;
    assert pt !in s.free;
    if !k.present(e) {
      var newPt := ptPage;
      if newPt == 0 {
        assert s.free != [] ==> LinkedAt(s.mem, s.free, 0, 0);
        newPt := AllocPage(s);
        if newPt == 0 {
          ok := false;
          return;
        }
      } else {
        ptPage' := 0;
      }
      s.mem := s.mem[newPt := ZeroPage()];
      s.mem := Store(s.mem, pt, offset, k.pointer(newPt));
      places' := places[newPt := Place(level - 1, Prefix(a, level))];
      GrownByOne(old(s.mem), old(s.free), places, s.mem, s.free, ptPage, ptPage', newPt, ZeroPage(),
        places'[newPt], pt, offset, k.pointer(newPt));
      ThreadedElsewhere(old(s.mem), s.mem, s.freelist, s.free);
      CreateTable(f, k, old(s.mem), s.mem, places, root, a, tl, pt, level, r, newPt);
    } else {
      FollowTable(f, k, s.mem, places, root, a, tl, pt, level, r);
      r' := Meet(r, f.grants(e));
    }
    next := s.mem[pt][offset].frame;
  }

  /** The table for address a at level tl, with all tables above it. */
  method WalkDown(s: Machine, f: Format, k: Linkage, root: Pfn, tl: Level, a: nat, ptPage: Pfn, ghost places: Places)
    returns (ok: bool, pt: Pfn, ghost places': Places, ghost r: Rights)
    requires s.Valid() && Agrees(f, k) && tl <= f.top
    requires Separate(s.mem, s.free, places, ptPage)
    requires Tree(f, s.mem, places, root) && InRange(f, a) && OpenPath(f, k, s.mem, root, f.top, a, tl)
    modifies s
    ensures s.Valid()
    ensures !ok ==> s.free == []
    ensures |old(s.free)| >= f.top - tl ==> ok
    ensures ok ==>
      && Separate(s.mem, s.free, places', 0)
      && Located(f, k, s.mem, places', root, a, tl, pt, tl, r)
      && SameTranslations(f, old(s.mem), s.mem, root)
      && OpenPathsKept(f, k, old(s.mem), s.mem, root)
      && r == Granted(f, old(s.mem), root, f.top, a, tl, ALL_RIGHTS)
      && Grown(old(s.mem), old(s.free), places, s.mem, s.free, places', ptPage, f.top - tl)
  {
    hide Located, SameTranslations, OpenPathsKept, Granted, OpenPath, Grown, Separate, Tree, Agrees;
    var level: Level := f.top;
    ok, pt := true, root;
    var page := ptPage;
    r := ALL_RIGHTS;
    places' := places;
    StartAtRoot(f, k, s.mem, s.free, places, root, a, tl, ptPage);
    while level > tl
      invariant tl <= level <= f.top
      invariant s.Valid() && (page == 0 || page == ptPage) && Separate(s.mem, s.free, places', page)
      invariant Located(f, k, s.mem, places', root, a, tl, pt, level, r)
      invariant SameTranslations(f, old(s.mem), s.mem, root)
      invariant OpenPathsKept(f, k, old(s.mem), s.mem, root)
      invariant Granted(f, s.mem, pt, level, a, tl, r) == Granted(f, old(s.mem), root, f.top, a, tl, ALL_RIGHTS)
      invariant Grown(old(s.mem), old(s.free), places, s.mem, s.free, places', ptPage, f.top - level)
      invariant |old(s.free)| <= |s.free| + f.top - level
    {
      var below: Level := level - 1;
      ghost var m1, free1, places1, page1 := s.mem, s.free, places', page;
      ok, pt, page, places', r := StepDown(s, f, k, pt, level, below, a, page, places', root, tl, r);
      if !ok {
        return;
      }
      GoOn(f, k, old(s.mem), m1, s.mem, root);
      GrownTwice(old(s.mem), old(s.free), places, m1, free1, places1, page1, s.mem, s.free, places', ptPage, f.top - level, 1);
      level := below;
    }
    StopAtTable(f, s.mem, s.free, places', page, pt, a, tl, r);
  }

  /** From m to m' the translation changes exactly for the addresses in the page of level l around c: for
      them the walk ends at e, below the rights that the tables above granted in m. */
  ghost predicate Replaced(f: Format, m: Memory, m': Memory, root: Pfn, l: Level, c: nat, e: Word) {
    forall a: nat :: InRange(f, a) ==>
      (Translate(f, m', root, a) ==
       if Prefix(a, l) == Prefix(c, l) then f.resolve(e, l, a, Granted(f, m, root, f.top, c, l, ALL_RIGHTS))
       else Translate(f, m, root, a))
  }

  /** A path that is open down to level tl or above stays so. */
  ghost predicate OpenAbove(f: Format, k: Linkage, m: Memory, m': Memory, root: Pfn, tl: Level) {
    forall a: nat, h: Level :: InRange(f, a) && h >= tl && OpenPath(f, k, m, root, f.top, a, h) ==>
      PathKept(f, k, m, m', root, a, h)
  }

  lemma WriteEntry(f: Format, k: Linkage, m0: Memory, m1: Memory, m2: Memory, places: Places, root: Pfn, c: nat, t: Pfn,
                   l: Level, r: Rights, e: Word)
    requires Agrees(f, k) && Located(f, k, m1, places, root, c, l, t, l, r)
    requires SameTranslations(f, m0, m1, root) && OpenPathsKept(f, k, m0, m1, root)
    requires r == Granted(f, m0, root, f.top, c, l, ALL_RIGHTS)
    requires m2 == Store(m1, t, Index(c, l), e) && !(f.isTable(e, l) && l > 1)
    ensures Tree(f, m2, places, root) && Replaced(f, m0, m2, root, l, c, e) && OpenAbove(f, k, m0, m2, root, l)
  {
    SetEntry(f, m1, m2, places, root, c, t, l, r, e);
    SameAfterStore(f, m1, m2, places, t, Index(c, l), e);
    forall a: nat, tl: Level | InRange(f, a) && tl >= l && OpenPath(f, k, m0, root, f.top, a, tl)
      ensures PathKept(f, k, m0, m2, root, a, tl)
    {
      assert PathKept(f, k, m0, m1, root, a, tl);
      OpenPathStable(f, k, m1, m2, places, t, Index(c, l), root, f.top, a, tl, ALL_RIGHTS);
    }
  }

  /** Installs pte for address a in the table at level tl. ptPage is a page for the first missing table,
      or 0. The result pt and the index of a say where the entry stands. */
  method Install(s: Machine, f: Format, k: Linkage, root: Pfn, tl: Level, a: nat, pte: Word, ptPage: Pfn,
                 ghost places: Places)
    returns (ok: bool, pt: Pfn, ghost places': Places)
    requires s.Valid() && Agrees(f, k) && tl <= f.top
    requires Separate(s.mem, s.free, places, ptPage)
    requires Tree(f, s.mem, places, root) && InRange(f, a) && OpenPath(f, k, s.mem, root, f.top, a, tl)
    requires !(f.isTable(pte, tl) && tl > 1)
    modifies s
    ensures s.Valid()
    ensures !ok ==> s.free == []
    ensures |old(s.free)| >= f.top - tl ==> ok
    ensures ok ==>
      && Separate(s.mem, s.free, places', 0)
      && Tree(f, s.mem, places', root)
      && Replaced(f, old(s.mem), s.mem, root, tl, a, pte)
      && OpenAbove(f, k, old(s.mem), s.mem, root, tl)
      && Grown(old(s.mem), old(s.free), places, s.mem, s.free, places', ptPage, f.top - tl)
      && pt in places' && pt in s.mem && s.mem[pt][Index(a, tl)] == pte
  {
    ghost var r;
    ok, pt, places', r := WalkDown(s, f, k, root, tl, a, ptPage, places);
    if !ok {
      return;
    }
    ghost var before := s.mem;
    s.mem := Store(s.mem, pt, Index(a, tl), pte);
    WriteInTable(old(s.mem), old(s.free), places, before, s.free, places', ptPage, f.top - tl, s.freelist,
      pt, Index(a, tl), pte, s.mem);
    WriteEntry(f, k, old(s.mem), before, s.mem, places', root, a, pt, tl, r, pte);
  }
}
