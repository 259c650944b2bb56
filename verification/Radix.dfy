/** The radix page tables that extended page tables, host paging and the IOMMU share: the hardware
    walk over an entry format, and what a change of one entry does to the walk. */
module Radix {
  import opened PhysMem

  type Level = l: nat | 1 <= l <= 4 witness 1

  /** Address a without the bits below level l: one entry at level l translates the addresses that
      agree on Prefix(_, l), which are 4 KiB, 2 MiB, 1 GiB or 512 GiB. */
  function Prefix(a: nat, l: nat): nat
    requires 1 <= l <= 5
  {
    if l == 1 then a / 0x1000 else if l == 2 then a / 0x20_0000 else if l == 3 then a / 0x4000_0000
    else if l == 4 then a / 0x80_0000_0000 else a / 0x1_0000_0000_0000
  }

  /** The bits of a below level l. */
  function Offset(a: nat, l: Level): nat {
    if l == 1 then a % 0x1000 else if l == 2 then a % 0x20_0000 else if l == 3 then a % 0x4000_0000
    else a % 0x80_0000_0000
  }

  /** The index that address a selects in a table at level l. */
  function Index(a: nat, l: Level): (i: nat)
    ensures i < ENTRIES
  {
    Prefix(a, l) % 512
  }

  lemma PrefixIndex(a: nat, l: Level)
    ensures Prefix(a, l) == Prefix(a, l + 1) * 512 + Index(a, l)
  {
  }

  /** An offset in a large page, taken apart at the pages one level below. */
  lemma OffsetStep(a: nat, l: Level)
    requires l == 2 || l == 3
    ensures Offset(a, l) == PagesBefore(l, Index(a, l - 1)) * 4096 + Offset(a, l - 1)
  {
  }

  // ---- entry formats and the walk ----

  /** What a translation allows. */
  datatype Rights = Rights(read: bool, write: bool, execute: bool, user: bool)

  const ALL_RIGHTS := Rights(true, true, true, true)

  function Meet(r: Rights, s: Rights): Rights {
    Rights(r.read && s.read, r.write && s.write, r.execute && s.execute, r.user && s.user)
  }

  /** Leaf bits other than address and rights, from the upper and the lower end of the word. */
  datatype Attributes = Attributes(high: bv12, low: bv12)

  datatype Outcome = NotMapped | Misconfigured | Mapped(addr: nat, rights: Rights, attributes: Attributes)

  /** How the hardware reads an entry: the number of levels, whether the entry at a level points to a
      table, what the entry allows, and the outcome for an address at an entry where the walk ends,
      given what the entries above allow. */
  datatype Format = Format(
    top: Level,
    isTable: (Word, Level) -> bool,
    grants: Word -> Rights,
    resolve: (Word, Level, nat, Rights) -> Outcome)

  /** The hardware walk for address a, from table t at level l, with the rights acc so far. */
  ghost function Walk(f: Format, m: Memory, t: Pfn, l: Level, a: nat, acc: Rights): Outcome
    decreases l
  {
    if t !in m then Misconfigured else
      var e := m[t][Index(a, l)];
      if f.isTable(e, l) && l > 1 then Walk(f, m, e.frame, l - 1, a, Meet(acc, f.grants(e)))
      else f.resolve(e, l, a, acc)
  }

  ghost function Translate(f: Format, m: Memory, root: Pfn, a: nat): Outcome {
    Walk(f, m, root, f.top, a, ALL_RIGHTS)
  }

  // ---- trees ----

  /** A table at the given level that translates the addresses a with Prefix(a, level + 1) == prefix. */
  datatype Place = Place(level: Level, prefix: nat)

  type Places = map<Pfn, Place>

  ghost predicate Covers(p: Place, a: nat) {
    Prefix(a, p.level + 1) == p.prefix
  }

  /** Address a lies in the part of the table at p that index i selects. */
  ghost predicate InSlot(p: Place, i: nat, a: nat) {
    Prefix(a, p.level) == p.prefix * 512 + i
  }

  ghost predicate EntryOk(f: Format, e: Word, places: Places, p: Place, i: nat) {
    f.isTable(e, p.level) && p.level > 1 ==>
      && e.frame in places
      && places[e.frame] == Place(p.level - 1, p.prefix * 512 + i)
  }

  ghost predicate TableOk(f: Format, m: Memory, places: Places, t: Pfn)
    requires t in places
  {
    t in m && forall i: nat {:trigger EntryOk(f, m[t][i], places, places[t], i)} :: i < ENTRIES ==>
      EntryOk(f, m[t][i], places, places[t], i)
  }

  ghost predicate AllTablesOk(f: Format, m: Memory, places: Places) {
    forall t {:trigger TableOk(f, m, places, t)} :: t in places ==> TableOk(f, m, places, t)
  }

  /** The tables named in places form a tree below root. No two tables share a subtable, because a
      table has one place only. */
  ghost predicate Tree(f: Format, m: Memory, places: Places, root: Pfn) {
    && root in places && places[root] == Place(f.top, 0)
    && AllTablesOk(f, m, places)
  }

  /** m' differs from m, as far as the tables are concerned, at most in entry i of table t. */
  ghost predicate SameExcept(m: Memory, m': Memory, places: Places, t: Pfn, i: nat) {
    forall u: Pfn, j: nat :: u in places && j < ENTRIES ==> SameEntry(m, m', t, i, u, j)
  }

  ghost predicate SameEntry(m: Memory, m': Memory, t: Pfn, i: nat, u: Pfn, j: nat)
    requires j < ENTRIES
  {
    u in m && u in m' && ((u == t && j == i) || m'[u][j] == m[u][j])
  }

  lemma SlotFacts(p: Place, i: nat, a: nat)
    requires i < ENTRIES
    ensures InSlot(p, i, a) <==> Covers(p, a) && Index(a, p.level) == i
    ensures p.level > 1 ==> (InSlot(p, i, a) <==> Covers(Place(p.level - 1, p.prefix * 512 + i), a))
  {
    PrefixIndex(a, p.level);
  }

  lemma ChildFacts(f: Format, m: Memory, places: Places, u: Pfn, l: Level, a: nat)
    requires AllTablesOk(f, m, places)
    requires u in places && places[u].level == l && Covers(places[u], a)
    ensures u in m
    ensures var e := m[u][Index(a, l)];
      && InSlot(places[u], Index(a, l), a)
      && (f.isTable(e, l) && l > 1 ==>
           e.frame in places && places[e.frame].level == l - 1 && Covers(places[e.frame], a))
  {
    SlotFacts(places[u], Index(a, l), a);
    assert TableOk(f, m, places, u);
    assert EntryOk(f, m[u][Index(a, l)], places, places[u], Index(a, l));
  }

  /** A change of entry i of table t does not affect addresses outside its slot. */
  lemma {:induction false} WalkElsewhere(f: Format, m: Memory, m': Memory, places: Places, t: Pfn, i: nat,
                                         u: Pfn, l: Level, a: nat, acc: Rights)
    requires AllTablesOk(f, m, places)
    requires t in places && i < ENTRIES && SameExcept(m, m', places, t, i)
    requires u in places && places[u].level == l && Covers(places[u], a)
    requires !InSlot(places[t], i, a)
    ensures Walk(f, m', u, l, a, acc) == Walk(f, m, u, l, a, acc)
    decreases l
  {
    ChildFacts(f, m, places, u, l, a);
    assert SameEntry(m, m', t, i, u, Index(a, l));
    var e := m[u][Index(a, l)];
    if f.isTable(e, l) && l > 1 {
      WalkElsewhere(f, m, m', places, t, i, e.frame, l - 1, a, Meet(acc, f.grants(e)));
    }
  }

  // ---- writes outside the tables ----

  ghost predicate SameTables(m: Memory, m': Memory, places: Places) {
    forall u: Pfn :: u in places && u in m ==> u in m' && m'[u] == m[u]
  }

  lemma {:induction false} WalkSameTables(f: Format, m: Memory, m': Memory, places: Places, u: Pfn, l: Level, a: nat, acc: Rights)
    requires AllTablesOk(f, m, places) && SameTables(m, m', places)
    requires u in places && places[u].level == l && Covers(places[u], a)
    ensures Walk(f, m', u, l, a, acc) == Walk(f, m, u, l, a, acc)
    decreases l
  {
    ChildFacts(f, m, places, u, l, a);
    var e := m[u][Index(a, l)];
    if f.isTable(e, l) && l > 1 {
      WalkSameTables(f, m, m', places, e.frame, l - 1, a, Meet(acc, f.grants(e)));
    }
  }

  lemma TreeSameTables(f: Format, m: Memory, m': Memory, places: Places, root: Pfn)
    requires Tree(f, m, places, root) && SameTables(m, m', places)
    ensures Tree(f, m', places, root)
  {
    forall u | u in places ensures TableOk(f, m', places, u) {
      assert TableOk(f, m, places, u);
      forall j: nat | j < ENTRIES ensures EntryOk(f, m'[u][j], places, places[u], j) {
        assert EntryOk(f, m[u][j], places, places[u], j);
      }
    }
  }

  lemma TablesInMemory(f: Format, m: Memory, places: Places, root: Pfn)
    requires Tree(f, m, places, root)
    ensures forall t :: t in places ==> t in m
  {
    forall t | t in places ensures t in m {
      assert TableOk(f, m, places, t);
    }
  }

  // ---- the path to a table ----

  /** From table t at level l, with the rights acc, the walk for a arrives at table u at level ul with
      the rights r. */
  ghost predicate Reaches(f: Format, m: Memory, t: Pfn, l: Level, a: nat, acc: Rights,
                          u: Pfn, ul: Level, r: Rights)
    decreases l
  {
    if l == ul then u == t && r == acc
    else
      && l > ul && t in m
      && var e := m[t][Index(a, l)];
         f.isTable(e, l) && Reaches(f, m, e.frame, l - 1, a, Meet(acc, f.grants(e)), u, ul, r)
  }

  lemma {:induction false} ReachesWalk(f: Format, m: Memory, t: Pfn, l: Level, a: nat, acc: Rights,
                                       u: Pfn, ul: Level, r: Rights)
    requires Reaches(f, m, t, l, a, acc, u, ul, r)
    ensures Walk(f, m, t, l, a, acc) == Walk(f, m, u, ul, a, r)
    decreases l
  {
    if l != ul {
      var e := m[t][Index(a, l)];
      ReachesWalk(f, m, e.frame, l - 1, a, Meet(acc, f.grants(e)), u, ul, r);
    }
  }

  lemma PrefixAbove(a: nat, b: nat, l: Level, h: Level)
    requires Prefix(a, l + 1) == Prefix(b, l + 1) && l < h
    ensures Index(a, h) == Index(b, h)
    decreases h - l
  {
    PrefixIndex(a, l + 1);
    PrefixIndex(b, l + 1);
    assert Prefix(a, l + 2) == Prefix(b, l + 2) by {
      assert Prefix(a, l + 2) == Prefix(a, l + 1) / 512;
      assert Prefix(b, l + 2) == Prefix(b, l + 1) / 512;
    }
    if l + 1 < h {
      PrefixAbove(a, b, l + 1, h);
    }
  }

  /** The path to a table at level ul depends only on the address bits above that level. */
  lemma {:induction false} ReachesSamePrefix(f: Format, m: Memory, t: Pfn, l: Level, a: nat, b: nat,
                                             acc: Rights, u: Pfn, ul: Level, r: Rights)
    requires Reaches(f, m, t, l, a, acc, u, ul, r)
    requires Prefix(a, ul + 1) == Prefix(b, ul + 1)
    ensures Reaches(f, m, t, l, b, acc, u, ul, r)
    decreases l
  {
    if l != ul {
      PrefixAbove(a, b, ul, l);
      var e := m[t][Index(a, l)];
      ReachesSamePrefix(f, m, e.frame, l - 1, a, b, Meet(acc, f.grants(e)), u, ul, r);
    }
  }

  /** A change in a table at level ul or below leaves the path to level ul as it was. */
  lemma {:induction false} ReachesStable(f: Format, m: Memory, m': Memory, places: Places, c: Pfn, i: nat,
                                         t: Pfn, l: Level, a: nat, acc: Rights, u: Pfn, ul: Level, r: Rights)
    requires AllTablesOk(f, m, places)
    requires c in places && places[c].level <= ul && SameExcept(m, m', places, c, i)
    requires t in places && places[t].level == l && Covers(places[t], a)
    requires Reaches(f, m, t, l, a, acc, u, ul, r)
    ensures Reaches(f, m', t, l, a, acc, u, ul, r)
    decreases l
  {
    if l != ul {
      ChildFacts(f, m, places, t, l, a);
      assert SameEntry(m, m', c, i, t, Index(a, l));
      var e := m[t][Index(a, l)];
      ReachesStable(f, m, m', places, c, i, e.frame, l - 1, a, Meet(acc, f.grants(e)), u, ul, r);
    }
  }

  lemma {:induction false} ReachesChild(f: Format, m: Memory, t: Pfn, l: Level, a: nat, acc: Rights,
                                        u: Pfn, ul: Level, r: Rights)
    requires Reaches(f, m, t, l, a, acc, u, ul, r)
    requires ul > 1 && u in m && f.isTable(m[u][Index(a, ul)], ul)
    ensures var e := m[u][Index(a, ul)];
      Reaches(f, m, t, l, a, acc, e.frame, ul - 1, Meet(r, f.grants(e)))
    decreases l
  {
    if l != ul {
      var e := m[t][Index(a, l)];
      ReachesChild(f, m, e.frame, l - 1, a, Meet(acc, f.grants(e)), u, ul, r);
    }
  }

  // ---- what a change of one entry does to the translation ----

  /** The addresses that a tree in format f translates: 48 bits with four levels, 39 with three. */
  ghost predicate InRange(f: Format, a: nat) {
    Prefix(a, f.top + 1) == 0
  }

  /** On the way down for address a, table t at level l has been reached with the rights r. */
  ghost predicate At(f: Format, m: Memory, places: Places, root: Pfn, a: nat, t: Pfn, l: Level, r: Rights) {
    && t in places && places[t] == Place(l, Prefix(a, l + 1))
    && Reaches(f, m, root, f.top, a, ALL_RIGHTS, t, l, r)
  }

  /** Where the walk ends at the entry that At points to, the translation is that entry's. */
  lemma TranslateInSlot(f: Format, m: Memory, places: Places, root: Pfn, c: nat, t: Pfn, l: Level, r: Rights, a: nat)
    requires At(f, m, places, root, c, t, l, r)
    requires t in m && !(f.isTable(m[t][Index(c, l)], l) && l > 1)
    requires Prefix(a, l) == Prefix(c, l)
    ensures Translate(f, m, root, a) == f.resolve(m[t][Index(c, l)], l, a, r)
  {
    PrefixIndex(a, l);
    PrefixIndex(c, l);
    ReachesSamePrefix(f, m, root, f.top, c, a, ALL_RIGHTS, t, l, r);
    ReachesWalk(f, m, root, f.top, a, ALL_RIGHTS, t, l, r);
  }

  lemma TranslateElsewhere(f: Format, m: Memory, m': Memory, places: Places, root: Pfn, c: nat, t: Pfn, l: Level, a: nat)
    requires Tree(f, m, places, root) && InRange(f, a)
    requires t in places && places[t] == Place(l, Prefix(c, l + 1))
    requires SameExcept(m, m', places, t, Index(c, l))
    requires Prefix(a, l) != Prefix(c, l)
    ensures Translate(f, m', root, a) == Translate(f, m, root, a)
  {
    PrefixIndex(c, l);
    WalkElsewhere(f, m, m', places, t, Index(c, l), root, f.top, a, ALL_RIGHTS);
  }

  lemma SameAfterStore(f: Format, m: Memory, m': Memory, places: Places, t: Pfn, i: nat, e: Word)
    requires AllTablesOk(f, m, places) && t in m && i < ENTRIES && m' == Store(m, t, i, e)
    ensures SameExcept(m, m', places, t, i)
  {
    forall u: Pfn, j: nat | u in places && j < ENTRIES ensures SameEntry(m, m', t, i, u, j) {
      assert TableOk(f, m, places, u);
    }
  }

  lemma SetEntryKeepsTree(f: Format, m: Memory, m': Memory, places: Places, root: Pfn, t: Pfn, i: nat, l: Level, e: Word)
    requires Tree(f, m, places, root)
    requires t in places && places[t].level == l
    requires t in m && i < ENTRIES && m' == Store(m, t, i, e)
    requires !(f.isTable(e, l) && l > 1)
    ensures Tree(f, m', places, root)
  {
    forall u | u in places ensures TableOk(f, m', places, u) {
      assert TableOk(f, m, places, u);
      forall j: nat | j < ENTRIES ensures EntryOk(f, m'[u][j], places, places[u], j) {
        assert EntryOk(f, m[u][j], places, places[u], j);
      }
    }
  }

  lemma SetEntryAt(f: Format, m: Memory, m': Memory, places: Places, root: Pfn, c: nat, t: Pfn, l: Level, r: Rights,
                   e: Word, a: nat)
    requires Tree(f, m, places, root) && At(f, m, places, root, c, t, l, r)
    requires t in m && m' == Store(m, t, Index(c, l), e)
    requires !(f.isTable(e, l) && l > 1)
    requires InRange(f, c) && InRange(f, a)
    ensures Translate(f, m', root, a) ==
      if Prefix(a, l) == Prefix(c, l) then f.resolve(e, l, a, r) else Translate(f, m, root, a)
  {
    SameAfterStore(f, m, m', places, t, Index(c, l), e);
    if Prefix(a, l) == Prefix(c, l) {
      ReachesStable(f, m, m', places, t, Index(c, l), root, f.top, c, ALL_RIGHTS, t, l, r);
      TranslateInSlot(f, m', places, root, c, t, l, r, a);
    } else {
      TranslateElsewhere(f, m, m', places, root, c, t, l, a);
    }
  }

  /** Setting an entry that is not a table keeps the tree, and changes the translation in that entry's
      slot only. */
  lemma SetEntry(f: Format, m: Memory, m': Memory, places: Places, root: Pfn, c: nat, t: Pfn, l: Level, r: Rights, e: Word)
    requires Tree(f, m, places, root) && At(f, m, places, root, c, t, l, r)
    requires t in m && m' == Store(m, t, Index(c, l), e)
    requires !(f.isTable(e, l) && l > 1)
    requires InRange(f, c)
    ensures Tree(f, m', places, root)
    ensures forall a :: InRange(f, a) ==>
      (Translate(f, m', root, a) ==
       if Prefix(a, l) == Prefix(c, l) then f.resolve(e, l, a, r) else Translate(f, m, root, a))
  {
    SetEntryKeepsTree(f, m, m', places, root, t, Index(c, l), l, e);
    forall a | InRange(f, a)
      ensures Translate(f, m', root, a) ==
        if Prefix(a, l) == Prefix(c, l) then f.resolve(e, l, a, r) else Translate(f, m, root, a)
    {
      SetEntryAt(f, m, m', places, root, c, t, l, r, e, a);
    }
  }

  // ---- inserting a table ----

  /** page holds no pointers to further tables, seen as a table at level l. */
  ghost predicate NoTables(f: Format, page: Page, l: Level) {
    forall j: nat :: j < ENTRIES ==> !(f.isTable(page[j], l) && l > 1)
  }

  /** For address a, entry e at level l means the same as entry x pointing to page. */
  ghost predicate SameMeaningAt(f: Format, e: Word, l: Level, x: Word, page: Page, a: nat, r: Rights)
    requires l > 1
  {
    f.resolve(page[Index(a, l - 1)], l - 1, a, Meet(r, f.grants(x))) == f.resolve(e, l, a, r)
  }

  ghost predicate SameMeaning(f: Format, e: Word, l: Level, x: Word, page: Page)
    requires l > 1
  {
    forall a: nat, r: Rights :: SameMeaningAt(f, e, l, x, page, a, r)
  }

  /** m' is m with the page put at frame n and entry i of table t pointing to it. */
  ghost predicate Grafted(f: Format, m: Memory, m': Memory, t: Pfn, i: nat, l: Level, n: Pfn, x: Word, page: Page) {
    && t in m && i < ENTRIES && l > 1 && t != n
    && m' == Store(m[n := page], t, i, x)
    && x.frame == n && f.isTable(x, l) && NoTables(f, page, l - 1)
  }

  lemma GraftKeepsTree(f: Format, m: Memory, m': Memory, places: Places, root: Pfn, c: nat, t: Pfn, l: Level,
                       n: Pfn, x: Word, page: Page)
    requires Tree(f, m, places, root)
    requires t in places && places[t] == Place(l, Prefix(c, l + 1)) && n !in places
    requires Grafted(f, m, m', t, Index(c, l), l, n, x, page)
    ensures Tree(f, m', places[n := Place(l - 1, Prefix(c, l))], root)
  {
    var places' := places[n := Place(l - 1, Prefix(c, l))];
    PrefixIndex(c, l);
    forall u | u in places' ensures TableOk(f, m', places', u) {
      if u == n {
        forall j: nat | j < ENTRIES ensures EntryOk(f, m'[u][j], places', places'[u], j) {
          assert m'[u][j] == page[j];
        }
      } else {
        assert TableOk(f, m, places, u);
        forall j: nat | j < ENTRIES ensures EntryOk(f, m'[u][j], places', places'[u], j) {
          assert EntryOk(f, m[u][j], places, places[u], j);
        }
      }
    }
  }

  lemma SameAfterGraft(f: Format, m: Memory, m': Memory, places: Places, t: Pfn, i: nat, l: Level, n: Pfn, x: Word, page: Page)
    requires AllTablesOk(f, m, places) && n !in places
    requires Grafted(f, m, m', t, i, l, n, x, page)
    ensures SameExcept(m, m', places, t, i)
  {
    forall u: Pfn, j: nat | u in places && j < ENTRIES ensures SameEntry(m, m', t, i, u, j) {
      assert TableOk(f, m, places, u);
    }
  }

  lemma GraftReaches(f: Format, m: Memory, m': Memory, places: Places, root: Pfn, c: nat, t: Pfn, l: Level, r: Rights,
                     n: Pfn, x: Word, page: Page)
    requires Tree(f, m, places, root) && InRange(f, c) && At(f, m, places, root, c, t, l, r) && n !in places
    requires Grafted(f, m, m', t, Index(c, l), l, n, x, page)
    ensures At(f, m', places[n := Place(l - 1, Prefix(c, l))], root, c, n, l - 1, Meet(r, f.grants(x)))
  {
    SameAfterGraft(f, m, m', places, t, Index(c, l), l, n, x, page);
    ReachesStable(f, m, m', places, t, Index(c, l), root, f.top, c, ALL_RIGHTS, t, l, r);
    ReachesChild(f, m', root, f.top, c, ALL_RIGHTS, t, l, r);
  }

  lemma GraftAt(f: Format, m: Memory, m': Memory, places: Places, root: Pfn, c: nat, t: Pfn, l: Level, r: Rights,
                n: Pfn, x: Word, page: Page, a: nat)
    requires Tree(f, m, places, root) && InRange(f, c) && At(f, m, places, root, c, t, l, r) && n !in places
    requires Grafted(f, m, m', t, Index(c, l), l, n, x, page)
    requires !f.isTable(m[t][Index(c, l)], l) && SameMeaning(f, m[t][Index(c, l)], l, x, page)
    requires InRange(f, a)
    ensures Translate(f, m', root, a) == Translate(f, m, root, a)
  {
    if Prefix(a, l) == Prefix(c, l) {
      var places' := places[n := Place(l - 1, Prefix(c, l))];
      TranslateInSlot(f, m, places, root, c, t, l, r, a);
      GraftReaches(f, m, m', places, root, c, t, l, r, n, x, page);
      ReachesSamePrefix(f, m', root, f.top, c, a, ALL_RIGHTS, n, l - 1, Meet(r, f.grants(x)));
      ReachesWalk(f, m', root, f.top, a, ALL_RIGHTS, n, l - 1, Meet(r, f.grants(x)));
      assert m'[n] == page;
      assert SameMeaningAt(f, m[t][Index(c, l)], l, x, page, a, r);
    } else {
      SameAfterGraft(f, m, m', places, t, Index(c, l), l, n, x, page);
      TranslateElsewhere(f, m, m', places, root, c, t, l, a);
    }
  }

  /** Replacing an entry by a table of the same meaning changes no translation. */
  lemma Graft(f: Format, m: Memory, m': Memory, places: Places, root: Pfn, c: nat, t: Pfn, l: Level, r: Rights,
              n: Pfn, x: Word, page: Page)
    requires Tree(f, m, places, root) && InRange(f, c) && At(f, m, places, root, c, t, l, r) && n !in places
    requires Grafted(f, m, m', t, Index(c, l), l, n, x, page)
    requires !f.isTable(m[t][Index(c, l)], l) && SameMeaning(f, m[t][Index(c, l)], l, x, page)
    ensures var places' := places[n := Place(l - 1, Prefix(c, l))];
      Tree(f, m', places', root) && At(f, m', places', root, c, n, l - 1, Meet(r, f.grants(x)))
    ensures forall a :: InRange(f, a) ==> Translate(f, m', root, a) == Translate(f, m, root, a)
  {
    GraftKeepsTree(f, m, m', places, root, c, t, l, n, x, page);
    GraftReaches(f, m, m', places, root, c, t, l, r, n, x, page);
    forall a | InRange(f, a) ensures Translate(f, m', root, a) == Translate(f, m, root, a) {
      GraftAt(f, m, m', places, root, c, t, l, r, n, x, page, a);
    }
  }

  // ---- a tree that is empty ----

  /** A cleared page is the root of a tree without tables below. */
  lemma EmptyTree(f: Format, m: Memory, root: Pfn)
    requires root in m && m[root] == ZeroPage()
    requires forall l: Level :: !f.isTable(ZERO_WORD, l)
    ensures Tree(f, m, map[root := Place(f.top, 0)], root)
    ensures forall a: nat :: Translate(f, m, root, a) == f.resolve(ZERO_WORD, f.top, a, ALL_RIGHTS)
  {
    var places: Places := map[root := Place(f.top, 0)];
    forall j: nat | j < ENTRIES ensures EntryOk(f, m[root][j], places, places[root], j) {
      assert m[root][j] == ZERO_WORD;
    }
    assert TableOk(f, m, places, root);
    forall a: nat ensures Translate(f, m, root, a) == f.resolve(ZERO_WORD, f.top, a, ALL_RIGHTS) {
      assert m[root][Index(a, f.top)] == ZERO_WORD;
    }
  }
}
