/** The IOMMU's root, context and second-level tables: mapping a range for one source id. */
module Iommu {
  import opened PhysMem
  import opened Radix
  import opened PageAllocator
  import opened TableInstall

  // ---- second-level tables: 39-bit addresses, three levels ----

  predicate Present(e: Word) {
    e.lo & 3 != 0
  }

  predicate IsLeaf(e: Word, l: Level) {
    l == 1 || e.lo & 0x80 != 0
  }

  predicate IsTable(e: Word, l: Level) {
    Present(e) && !IsLeaf(e, l)
  }

  function Grants(e: Word): Rights {
    Rights(e.lo & 1 != 0, e.lo & 2 != 0, true, true)
  }

  function Resolve(e: Word, l: Level, a: nat, acc: Rights): Outcome {
    if !Present(e) then NotMapped
    else Mapped(e.frame * 4096 + Offset(a, l), Meet(acc, Grants(e)), Attributes(0, 0))
  }

  const VTD: Format := Format(3, IsTable, Grants, Resolve)

  function TablePointer(n: Pfn): Word {
    Word(0, n, 3)
  }

  const VTD_LINKS: Linkage := Linkage(Present, TablePointer)

  lemma VtdAgrees()
    ensures Agrees(VTD, VTD_LINKS)
  {
    forall n: Pfn, l: Level | l > 1 ensures VTD.isTable(VTD_LINKS.pointer(n), l) {
      assert TablePointer(n).lo == 3;
    }
    forall n: Pfn ensures VTD_LINKS.pointer(n).frame == n && VTD.grants(VTD_LINKS.pointer(n)) == ALL_RIGHTS {
      assert TablePointer(n).lo == 3;
    }
  }

  /** Only 4 KiB pages below root, and every table grants everything. */
  ghost predicate OpenTree(m: Memory, root: Pfn) {
    forall a: nat :: InRange(VTD, a) ==> OpenAt(m, root, a)
  }

  ghost predicate OpenAt(m: Memory, root: Pfn, a: nat) {
    && OpenPath(VTD, VTD_LINKS, m, root, 3, a, 1)
    && Granted(VTD, m, root, 3, a, 1, ALL_RIGHTS) == ALL_RIGHTS
  }

  // ---- root and context entries ----

  type Sid = n: nat | n < 0x1_0000

  function Bus(sid: Sid): (b: nat)
    ensures b < 256
  {
    sid / 256
  }

  function Devfn(sid: Sid): (d: nat)
    ensures d < 256
  {
    sid % 256
  }

  lemma SidsDiffer(sid: Sid, sid': Sid)
    requires sid != sid'
    ensures Bus(sid) != Bus(sid') || Devfn(sid) != Devfn(sid')
  {
  }

  /** Bit 0 of a root or context entry. */
  predicate Valid(e: Word) {
    e.lo & 1 != 0
  }

  function RootEntry(n: Pfn): Word {
    Word(0, n, 1)
  }

  /** The low half of a context entry: present, no fault reports, multi-level translation by the tables
      at frame n. */
  function ContextEntry(n: Pfn): Word {
    Word(0, n, 3)
  }

  /** The high half of a context entry: 39-bit addresses, and the source id as domain id in bits 23..8. */
  function ContextDomain(sid: Sid): Word {
    Word(0, sid / 16, (((sid % 16) as bv12) << 8) | 1)
  }

  /** Multi-level translation with 39-bit addresses. */
  predicate ThreeLevels(low: Word, high: Word) {
    low.lo & 0xC == 0 && high.lo & 7 == 1
  }

  /** The domain, by which the IOMMU tags what it caches: bits 23 to 8 of the high half. */
  function DomainId(high: Word): nat {
    high.frame % 0x1000 * 16 + (high.lo >> 8) as nat
  }

  /** A context entry for this source id: 39-bit addresses, a domain of its own, and no reports of faults. */
  predicate ContextFor(low: Word, high: Word, sid: Sid) {
    ThreeLevels(low, high) && DomainId(high) == sid && low.lo & 2 != 0
  }

  /** The IOMMU's translation of a for source id sid. */
  ghost function TranslateFor(m: Memory, rt: Pfn, sid: Sid, a: nat): Outcome {
    if rt !in m then Misconfigured else
      var re := m[rt][2 * Bus(sid)];
      if !Valid(re) then NotMapped
      else if re.frame !in m then Misconfigured else
        var ce := m[re.frame][2 * Devfn(sid)];
        if !Valid(ce) then NotMapped
        else if !ThreeLevels(ce, m[re.frame][2 * Devfn(sid) + 1]) then Misconfigured
        else Translate(VTD, m, ce.frame, a)
  }

  /** What a page of the IOMMU is used for. */
  datatype Role = RootTable | Context(bus: nat) | Second(sid: Sid)

  ghost predicate BusOk(m: Memory, rt: Pfn, role: map<Pfn, Role>, b: nat)
    requires b < 256
  {
    && rt in m
    && var re := m[rt][2 * b];
       Valid(re) ==> re.frame in m && re.frame in role && role[re.frame] == Context(b)
  }

  ghost predicate HasContext(m: Memory, rt: Pfn, sid: Sid) {
    && rt in m && Valid(m[rt][2 * Bus(sid)])
    && m[rt][2 * Bus(sid)].frame in m && Valid(m[m[rt][2 * Bus(sid)].frame][2 * Devfn(sid)])
  }

  ghost function ContextTable(m: Memory, rt: Pfn, sid: Sid): Pfn
    requires rt in m
  {
    m[rt][2 * Bus(sid)].frame
  }

  /** The context entry of sid points to root. */
  ghost predicate ContextFrame(m: Memory, rt: Pfn, sid: Sid, root: Pfn) {
    && rt in m && ContextTable(m, rt, sid) in m
    && root == m[ContextTable(m, rt, sid)][2 * Devfn(sid)].frame
  }

  ghost predicate SidOk(m: Memory, rt: Pfn, places: map<Sid, Places>, sid: Sid) {
    && (sid in places <==> HasContext(m, rt, sid))
    && (HasContext(m, rt, sid) ==>
         var c := ContextTable(m, rt, sid);
         && ContextFor(m[c][2 * Devfn(sid)], m[c][2 * Devfn(sid) + 1], sid)
         && Tree(VTD, m, places[sid], m[c][2 * Devfn(sid)].frame)
         && OpenTree(m, m[c][2 * Devfn(sid)].frame))
  }

  ghost predicate RolesOk(m: Memory, rt: Pfn, free: seq<Pfn>, role: map<Pfn, Role>, places: map<Sid, Places>) {
    && rt in role && role[rt] == RootTable
    && (forall f :: f in role ==> f in m && f !in free)
    && (forall sid: Sid, f: Pfn :: sid in places && f in places[sid] ==> f in role && role[f] == Second(sid))
  }

  /** The tables of different source ids, and the root and context tables, are all different pages. */
  ghost predicate Sound(m: Memory, rt: Pfn, free: seq<Pfn>, role: map<Pfn, Role>, places: map<Sid, Places>) {
    && RolesOk(m, rt, free, role, places)
    && (forall b: nat :: b < 256 ==> BusOk(m, rt, role, b))
    && (forall sid: Sid :: SidOk(m, rt, places, sid))
  }

  /** vtd_setup_root_table: a cleared page is a root table without contexts, and translates nothing. */
  lemma RootTableSound(m: Memory, rt: Pfn, free: seq<Pfn>)
    requires rt in m && m[rt] == ZeroPage() && rt !in free
    ensures Sound(m, rt, free, map[rt := RootTable], map[])
    ensures forall sid: Sid, a: nat :: !TranslateFor(m, rt, sid, a).Mapped?
  {
    forall b: nat | b < 256 ensures BusOk(m, rt, map[rt := RootTable], b) {
      assert m[rt][2 * b] == ZERO_WORD;
    }
    forall sid: Sid, a: nat ensures SidOk(m, rt, map[], sid) && !TranslateFor(m, rt, sid, a).Mapped? {
      assert m[rt][2 * Bus(sid)] == ZERO_WORD;
    }
  }

  ghost predicate SameFor(m: Memory, m': Memory, rt: Pfn, sid: Sid) {
    forall a: nat :: InRange(VTD, a) ==> TranslateFor(m', rt, sid, a) == TranslateFor(m, rt, sid, a)
  }

  ghost predicate SameForAll(m: Memory, m': Memory, rt: Pfn) {
    forall sid: Sid :: SameFor(m, m', rt, sid)
  }

  // ---- what the steps keep ----

  /** The entries for sid and the pages of its tables are the same in m and m'. */
  ghost predicate SidUntouched(m: Memory, m': Memory, rt: Pfn, places: map<Sid, Places>, sid: Sid) {
    && rt in m && rt in m' && m'[rt][2 * Bus(sid)] == m[rt][2 * Bus(sid)]
    && (Valid(m[rt][2 * Bus(sid)]) ==>
         var c := ContextTable(m, rt, sid);
         && c in m && c in m'
         && m'[c][2 * Devfn(sid)] == m[c][2 * Devfn(sid)]
         && m'[c][2 * Devfn(sid) + 1] == m[c][2 * Devfn(sid) + 1])
    && (sid in places ==> SameTables(m, m', places[sid]))
  }

  lemma UntouchedSid(m: Memory, m': Memory, rt: Pfn, places: map<Sid, Places>, sid: Sid)
    requires SidOk(m, rt, places, sid) && SidUntouched(m, m', rt, places, sid)
    ensures SidOk(m', rt, places, sid)
    ensures SameFor(m, m', rt, sid)
  {
    if HasContext(m, rt, sid) {
      var root := m[ContextTable(m, rt, sid)][2 * Devfn(sid)].frame;
      UntouchedTree(m, m', places[sid], root);
    }
  }

  lemma UntouchedTree(m: Memory, m': Memory, places: Places, root: Pfn)
    requires Tree(VTD, m, places, root) && OpenTree(m, root) && SameTables(m, m', places)
    ensures Tree(VTD, m', places, root) && OpenTree(m', root)
    ensures forall a :: InRange(VTD, a) ==> Translate(VTD, m', root, a) == Translate(VTD, m, root, a)
  {
    TreeSameTables(VTD, m, m', places, root);
    VtdAgrees();
    forall a: nat | InRange(VTD, a)
      ensures OpenAt(m', root, a) && Translate(VTD, m', root, a) == Translate(VTD, m, root, a)
    {
      assert OpenAt(m, root, a);
      WalkSameTables(VTD, m, m', places, root, 3, a, ALL_RIGHTS);
      OpenPathSameTables(VTD, VTD_LINKS, m, m', places, root, 3, a, 1, ALL_RIGHTS);
    }
  }

  /** A cleared page becomes the context table of bus b. */
  lemma AddContextTable(m: Memory, m': Memory, rt: Pfn, free: seq<Pfn>, free': seq<Pfn>, role: map<Pfn, Role>,
                        places: map<Sid, Places>, b: nat, n: Pfn)
    requires Sound(m, rt, free, role, places) && b < 256 && !Valid(m[rt][2 * b])
    requires n in m && n !in role && n !in free' && (forall f :: f in free' ==> f in free)
    requires m' == m[n := ZeroPage()][rt := m[rt][2 * b := RootEntry(n)][2 * b + 1 := ZERO_WORD]]
    ensures Sound(m', rt, free', role[n := Context(b)], places) && SameForAll(m, m', rt)
    ensures Valid(m'[rt][2 * b]) && m'[rt][2 * b].frame == n
  {
    var role' := role[n := Context(b)];
    assert Valid(RootEntry(n));
    forall b': nat | b' < 256 ensures BusOk(m', rt, role', b') {
      assert BusOk(m, rt, role, b');
    }
    forall sid: Sid
      ensures SidOk(m', rt, places, sid)
      ensures SameFor(m, m', rt, sid)
    {
      assert SidOk(m, rt, places, sid) && BusOk(m, rt, role, Bus(sid));
      if Bus(sid) == b {
        assert m'[n][2 * Devfn(sid)] == ZERO_WORD;
      } else {
        assert SidUntouched(m, m', rt, places, sid);
        UntouchedSid(m, m', rt, places, sid);
      }
    }
  }

  lemma FreshTables(m: Memory, n: Pfn)
    requires n in m && m[n] == ZeroPage()
    ensures Tree(VTD, m, map[n := Place(3, 0)], n) && OpenTree(m, n)
    ensures forall a: nat :: Translate(VTD, m, n, a) == NotMapped
  {
    EmptyTree(VTD, m, n);
    forall a: nat | InRange(VTD, a) ensures OpenAt(m, n, a) {
      assert m[n][Index(a, 3)] == ZERO_WORD;
    }
  }

  lemma ContextWords(n: Pfn, sid: Sid)
    ensures Valid(ContextEntry(n)) && ContextFor(ContextEntry(n), ContextDomain(sid), sid)
  {
    Nibble(sid % 16);
  }

  lemma Nibble(x: nat)
    requires x < 16
    ensures (((x as bv12) << 8) | 1) & 7 == 1 && ((((x as bv12) << 8) | 1) >> 8) as nat == x
  {
    var b := x as bv12;
    assert ((b << 8) | 1) >> 8 == b by {
      assert b < 16;
    }
  }

  /** Whatever is mapped, the IOMMU caches it for each source id under a domain of its own. */
  lemma DomainsDiffer(m: Memory, rt: Pfn, free: seq<Pfn>, role: map<Pfn, Role>, places: map<Sid, Places>, sid: Sid, sid': Sid)
    requires Sound(m, rt, free, role, places) && sid in places && sid' in places && sid != sid'
    ensures
      var c, c' := ContextTable(m, rt, sid), ContextTable(m, rt, sid');
      && c in m && c' in m
      && DomainId(m[c][2 * Devfn(sid) + 1]) != DomainId(m[c'][2 * Devfn(sid') + 1])
  {
    assert SidOk(m, rt, places, sid) && SidOk(m, rt, places, sid');
  }

  /** A cleared page becomes the top second-level table of sid. */
  lemma AddContext(m: Memory, m': Memory, rt: Pfn, free: seq<Pfn>, free': seq<Pfn>, role: map<Pfn, Role>,
                   places: map<Sid, Places>, sid: Sid, n: Pfn)
    requires Sound(m, rt, free, role, places)
    requires Valid(m[rt][2 * Bus(sid)]) && !HasContext(m, rt, sid)
    requires n in m && n !in role && n !in free' && (forall f :: f in free' ==> f in free)
    requires var c := ContextTable(m, rt, sid);
      c in m && m' == m[n := ZeroPage()][c := m[c][2 * Devfn(sid) := ContextEntry(n)][2 * Devfn(sid) + 1 := ContextDomain(sid)]]
    ensures Sound(m', rt, free', role[n := Second(sid)], places[sid := map[n := Place(3, 0)]]) && SameForAll(m, m', rt)
    ensures HasContext(m', rt, sid)
  {
    var role' := role[n := Second(sid)];
    var places' := places[sid := map[n := Place(3, 0)]];
    var c := ContextTable(m, rt, sid);
    assert BusOk(m, rt, role, Bus(sid));
    assert m'[n] == ZeroPage();
    FreshTables(m', n);
    ContextWords(n, sid);
    forall b: nat | b < 256 ensures BusOk(m', rt, role', b) {
      assert BusOk(m, rt, role, b);
    }
    forall sid': Sid ensures SidOk(m', rt, places', sid') && SameFor(m, m', rt, sid') {
      assert SidOk(m, rt, places, sid') && BusOk(m, rt, role, Bus(sid'));
      if sid' != sid {
        SidsDiffer(sid, sid');
        OtherContextStays(m, m', rt, role, places, sid, n, sid');
        UntouchedSid(m, m', rt, places, sid');
        SidOkElsewhere(m', rt, places, sid, map[n := Place(3, 0)], sid');
      }
    }
  }

  lemma SidOkElsewhere(m: Memory, rt: Pfn, places: map<Sid, Places>, sid: Sid, p: Places, sid': Sid)
    requires SidOk(m, rt, places, sid') && sid' != sid
    ensures SidOk(m, rt, places[sid := p], sid')
  {
  }

  lemma OtherContextStays(m: Memory, m': Memory, rt: Pfn, role: map<Pfn, Role>,
      places: map<Sid, Places>, sid: Sid, n: Pfn, sid': Sid)
    requires rt in m && rt in role && role[rt] == RootTable && n in m && n !in role
    requires BusOk(m, rt, role, Bus(sid)) && BusOk(m, rt, role, Bus(sid')) && Valid(m[rt][2 * Bus(sid)])
    requires Bus(sid) != Bus(sid') || Devfn(sid) != Devfn(sid')
    requires forall f: Pfn :: sid' in places && f in places[sid'] ==> f in role && role[f] == Second(sid')
    requires var c := ContextTable(m, rt, sid);
      c in m && m' == m[n := ZeroPage()][c := m[c][2 * Devfn(sid) := ContextEntry(n)][2 * Devfn(sid) + 1 := ContextDomain(sid)]]
    ensures SidUntouched(m, m', rt, places, sid')
  {
    var c := ContextTable(m, rt, sid);
    assert c != rt && m'[rt] == m[rt];
    if Valid(m[rt][2 * Bus(sid')]) {
      var c' := ContextTable(m, rt, sid');
      if Bus(sid') == Bus(sid) {
        assert c' == c;
      } else {
        assert c' != c;
      }
    }
  }

  // ---- installing pages for one source id ----

  function PageEntry(p: Pfn): Word {
    Word(0, p, 3)
  }

  lemma PageEntryMeaning(p: Pfn, a: nat)
    ensures Resolve(PageEntry(p), 1, a, ALL_RIGHTS) == Mapped(p * 4096 + a % 4096, ALL_RIGHTS, Attributes(0, 0))
  {
    assert PageEntry(p).lo == 3;
  }

  ghost function WithTables(role: map<Pfn, Role>, sid: Sid, p: Places): map<Pfn, Role> {
    map f: Pfn | f in role.Keys + p.Keys :: if f in p then Second(sid) else role[f]
  }

  /** From m to m' the 4 KiB page at address c was mapped to page p for sid, and nothing else changed for
      any source id. */
  ghost predicate OneMapped(m: Memory, m': Memory, rt: Pfn, sid: Sid, c: nat, p: Pfn) {
    && (forall sid': Sid :: sid' != sid ==> SameFor(m, m', rt, sid'))
    && forall a: nat :: InRange(VTD, a) ==>
      (TranslateFor(m', rt, sid, a) ==
       if Prefix(a, 1) == Prefix(c, 1) then Mapped(p * 4096 + a % 4096, ALL_RIGHTS, Attributes(0, 0))
       else TranslateFor(m, rt, sid, a))
  }

  /** The pages of the IOMMU that are no tables of sid are the same in m and m'. */
  lemma RestUntouched(m: Memory, m': Memory, rt: Pfn, free: seq<Pfn>, free': seq<Pfn>, role: map<Pfn, Role>,
                      places: map<Sid, Places>, sid: Sid, p: Places, f: Pfn)
    requires RolesOk(m, rt, free, role, places) && sid in places
    requires Grown(m, free, places[sid], m', free', p, 0, 2)
    requires f in role && role[f] != Second(sid)
    ensures f !in p && f in m' && m'[f] == m[f]
  {
  }

  lemma OtherSid(m: Memory, m': Memory, rt: Pfn, free: seq<Pfn>, free': seq<Pfn>, role: map<Pfn, Role>,
                 places: map<Sid, Places>, sid: Sid, p: Places, sid': Sid)
    requires RolesOk(m, rt, free, role, places) && sid in places && sid' != sid
    requires Grown(m, free, places[sid], m', free', p, 0, 2)
    requires SidOk(m, rt, places, sid') && BusOk(m, rt, role, Bus(sid'))
    ensures SidOk(m', rt, places[sid := p], sid') && SameFor(m, m', rt, sid')
  {
    hide Grown, Tree, OpenTree;
    RestUntouched(m, m', rt, free, free', role, places, sid, p, rt);
    if Valid(m[rt][2 * Bus(sid')]) {
      RestUntouched(m, m', rt, free, free', role, places, sid, p, ContextTable(m, rt, sid'));
    }
    if sid' in places {
      forall u: Pfn | u in places[sid'] && u in m ensures u in m' && m'[u] == m[u] {
        RestUntouched(m, m', rt, free, free', role, places, sid, p, u);
      }
    }
    assert SidUntouched(m, m', rt, places, sid');
    UntouchedSid(m, m', rt, places, sid');
    SidOkElsewhere(m', rt, places, sid, p, sid');
  }

  lemma OwnSid(m: Memory, m': Memory, rt: Pfn, free: seq<Pfn>, free': seq<Pfn>, role: map<Pfn, Role>,
               places: map<Sid, Places>, sid: Sid, p: Places, root: Pfn, c: nat, page: Pfn)
    requires Sound(m, rt, free, role, places) && HasContext(m, rt, sid)
    requires root == m[ContextTable(m, rt, sid)][2 * Devfn(sid)].frame && InRange(VTD, c)
    requires sid in places && Tree(VTD, m', p, root) && Grown(m, free, places[sid], m', free', p, 0, 2)
    requires Replaced(VTD, m, m', root, 1, c, PageEntry(page)) && OpenAbove(VTD, VTD_LINKS, m, m', root, 1)
    ensures SidOk(m', rt, places[sid := p], sid)
    ensures forall a: nat :: InRange(VTD, a) ==>
      (TranslateFor(m', rt, sid, a) ==
       if Prefix(a, 1) == Prefix(c, 1) then Mapped(page * 4096 + a % 4096, ALL_RIGHTS, Attributes(0, 0))
       else TranslateFor(m, rt, sid, a))
  {
    assert SidOk(m, rt, places, sid) && BusOk(m, rt, role, Bus(sid));
    RestUntouched(m, m', rt, free, free', role, places, sid, p, rt);
    RestUntouched(m, m', rt, free, free', role, places, sid, p, ContextTable(m, rt, sid));
    OpenTreeStays(m, m', root);
    assert OpenAt(m, root, c);
    forall a: nat | InRange(VTD, a)
      ensures Translate(VTD, m', root, a) ==
        if Prefix(a, 1) == Prefix(c, 1) then Mapped(page * 4096 + a % 4096, ALL_RIGHTS, Attributes(0, 0))
        else Translate(VTD, m, root, a)
    {
      PageEntryMeaning(page, a);
    }
  }

  lemma OpenTreeStays(m: Memory, m': Memory, root: Pfn)
    requires OpenTree(m, root) && OpenAbove(VTD, VTD_LINKS, m, m', root, 1)
    ensures OpenTree(m', root)
  {
    forall a: nat | InRange(VTD, a) ensures OpenAt(m', root, a) {
      assert OpenAt(m, root, a);
      assert PathKept(VTD, VTD_LINKS, m, m', root, a, 1);
    }
  }

  lemma InstallForSid(m: Memory, m': Memory, rt: Pfn, free: seq<Pfn>, free': seq<Pfn>, role: map<Pfn, Role>,
                      places: map<Sid, Places>, sid: Sid, p: Places, root: Pfn, c: nat, page: Pfn)
    requires Sound(m, rt, free, role, places) && HasContext(m, rt, sid)
    requires root == m[ContextTable(m, rt, sid)][2 * Devfn(sid)].frame && InRange(VTD, c)
    requires sid in places && Tree(VTD, m', p, root) && Separate(m', free', p, 0)
        && Grown(m, free, places[sid], m', free', p, 0, 2)
    requires Replaced(VTD, m, m', root, 1, c, PageEntry(page)) && OpenAbove(VTD, VTD_LINKS, m, m', root, 1)
    ensures Sound(m', rt, free', WithTables(role, sid, p), places[sid := p])
    ensures OneMapped(m, m', rt, sid, c, page)
  {
    hide Tree, Replaced, OpenAbove, OpenTree, Grown, Separate, HasContext;
    OwnSid(m, m', rt, free, free', role, places, sid, p, root, c, page);
    var places' := places[sid := p];
    forall sid': Sid ensures SidOk(m', rt, places', sid') && (sid' != sid ==> SameFor(m, m', rt, sid')) {
      assert SidOk(m, rt, places, sid') && BusOk(m, rt, role, Bus(sid'));
      if sid' != sid {
        OtherSid(m, m', rt, free, free', role, places, sid, p, sid');
      }
    }
    TablesInMemory(VTD, m', p, root);
    RolesGrow(m, m', rt, free, free', role, places, sid, p);
    BusesStay(m, m', rt, free, free', role, places, sid, p);
  }

  lemma BusesStay(m: Memory, m': Memory, rt: Pfn, free: seq<Pfn>, free': seq<Pfn>, role: map<Pfn, Role>,
                  places: map<Sid, Places>, sid: Sid, p: Places)
    requires RolesOk(m, rt, free, role, places) && sid in places
    requires forall b: nat :: b < 256 ==> BusOk(m, rt, role, b)
    requires Grown(m, free, places[sid], m', free', p, 0, 2)
    ensures forall b: nat :: b < 256 ==> BusOk(m', rt, WithTables(role, sid, p), b)
  {
    forall b: nat | b < 256 ensures BusOk(m', rt, WithTables(role, sid, p), b) {
      assert BusOk(m, rt, role, b);
      RestUntouched(m, m', rt, free, free', role, places, sid, p, rt);
      if Valid(m[rt][2 * b]) {
        RestUntouched(m, m', rt, free, free', role, places, sid, p, m[rt][2 * b].frame);
      }
    }
  }

  lemma RolesGrow(m: Memory, m': Memory, rt: Pfn, free: seq<Pfn>, free': seq<Pfn>, role: map<Pfn, Role>,
                  places: map<Sid, Places>, sid: Sid, p: Places)
    requires RolesOk(m, rt, free, role, places) && sid in places
    requires Separate(m', free', p, 0) && Grown(m, free, places[sid], m', free', p, 0, 2)
    requires forall f :: f in p ==> f in m'
    ensures RolesOk(m', rt, free', WithTables(role, sid, p), places[sid := p])
  {
    RestUntouched(m, m', rt, free, free', role, places, sid, p, rt);
    assert forall f :: f in free' ==> f in free;
    forall sid': Sid, f: Pfn | sid' in places && sid' != sid && f in places[sid']
      ensures f in role && role[f] == Second(sid') && f !in p
    {
      RestUntouched(m, m', rt, free, free', role, places, sid, p, f);
    }
  }

  // ---- mapping a range ----

  /** From m0 to m the addresses iova .. iova+size-1 of sid became mapped to pa .. pa+size-1, readable and
      writable, and no other translation of any source id changed. */
  ghost predicate RangeMapped(m0: Memory, m: Memory, rt: Pfn, sid: Sid, iova: nat, pa: nat, size: nat) {
    && (forall sid': Sid :: sid' != sid ==> SameFor(m0, m, rt, sid'))
    && forall a: nat :: InRange(VTD, a) ==>
      (TranslateFor(m, rt, sid, a) ==
       if iova <= a < iova + size then Mapped(pa + (a - iova), ALL_RIGHTS, Attributes(0, 0))
       else TranslateFor(m0, rt, sid, a))
  }

  lemma RangeStep(m0: Memory, m: Memory, m': Memory, rt: Pfn, sid: Sid, iova: nat, pa: nat, done: nat)
    requires iova % 4096 == 0 && pa % 4096 == 0 && done % 4096 == 0 && pa + done < FRAMES * 4096
    requires RangeMapped(m0, m, rt, sid, iova, pa, done)
    requires OneMapped(m, m', rt, sid, iova + done, (pa + done) / 4096)
    ensures RangeMapped(m0, m', rt, sid, iova, pa, done + 4096)
  {
    hide TranslateFor, SameFor, Prefix;
    var c, p := iova + done, (pa + done) / 4096;
    WholePages(iova, done);
    WholePages(pa, done);
    forall sid': Sid | sid' != sid ensures SameFor(m0, m', rt, sid') {
      assert SameFor(m0, m, rt, sid') && SameFor(m, m', rt, sid');
      SameThrough(m0, m, m', rt, sid');
    }
    forall a: nat | InRange(VTD, a)
      ensures TranslateFor(m', rt, sid, a) ==
        if iova <= a < iova + done + 4096 then Mapped(pa + (a - iova), ALL_RIGHTS, Attributes(0, 0))
        else TranslateFor(m0, rt, sid, a)
    {
      OnPage(a, c);
    }
  }

  lemma WholePages(x: nat, y: nat)
    requires x % 4096 == 0 && y % 4096 == 0
    ensures (x + y) % 4096 == 0 && (x + y) / 4096 * 4096 == x + y
  {
  }

  lemma OnPage(a: nat, c: nat)
    requires c % 4096 == 0
    ensures Prefix(a, 1) == Prefix(c, 1) <==> c <= a < c + 4096
    ensures c <= a < c + 4096 ==> a % 4096 == a - c
  {
  }

  lemma SameThrough(m0: Memory, m1: Memory, m2: Memory, rt: Pfn, sid: Sid)
    requires SameFor(m0, m1, rt, sid) && SameFor(m1, m2, rt, sid)
    ensures SameFor(m0, m2, rt, sid)
  {
  }

  lemma RangeStart(m0: Memory, m: Memory, rt: Pfn, sid: Sid, iova: nat, pa: nat)
    requires SameForAll(m0, m, rt)
    ensures RangeMapped(m0, m, rt, sid, iova, pa, 0)
  {
    assert SameFor(m0, m, rt, sid);
  }

  lemma SameTwice(m0: Memory, m1: Memory, m2: Memory, rt: Pfn)
    requires SameForAll(m0, m1, rt) && SameForAll(m1, m2, rt)
    ensures SameForAll(m0, m2, rt)
  {
    forall sid: Sid ensures SameFor(m0, m2, rt, sid) {
      assert SameFor(m0, m1, rt, sid) && SameFor(m1, m2, rt, sid);
    }
  }

  /** The context table of bus b, allocated if it is missing. */
  method EnsureContextTable(s: Machine, rt: Pfn, b: nat, ghost role: map<Pfn, Role>, ghost places: map<Sid, Places>)
    returns (ok: bool, ghost role': map<Pfn, Role>)
    requires s.Valid() && Sound(s.mem, rt, s.free, role, places) && b < 256
    modifies s
    ensures s.Valid()
    ensures !ok ==> s.free == []
    ensures old(s.free) != [] ==> ok
    ensures ok ==> |old(s.free)| - 1 <= |s.free|
    ensures ok ==>
      && Sound(s.mem, rt, s.free, role', places) && SameForAll(old(s.mem), s.mem, rt)
      && rt in s.mem && Valid(s.mem[rt][2 * b])
  {
    hide SidOk, SameFor;
    ok, role' := true, role;
    assert BusOk(s.mem, rt, role, b);
    if !Valid(s.mem[rt][2 * b]) {
      FreeHead(s.mem, s.freelist, s.free);
      var ce := AllocPage(s);
      ok := ce != 0;
      if !ok {
        return;
      }
      s.mem := s.mem[ce := ZeroPage()];
      s.mem := s.mem[rt := s.mem[rt][2 * b := RootEntry(ce)][2 * b + 1 := ZERO_WORD]];
      ThreadedElsewhere(old(s.mem), s.mem, s.freelist, s.free);
      AddContextTable(old(s.mem), s.mem, rt, old(s.free), s.free, role, places, b, ce);
      role' := role[ce := Context(b)];
    } else {
      SameForItself(s.mem, rt);
    }
  }

  lemma SameForItself(m: Memory, rt: Pfn)
    ensures SameForAll(m, m, rt)
  {
  }

  /** The top second-level table of sid, allocated with its context entry if it is missing. */
  method EnsureContext(s: Machine, rt: Pfn, sid: Sid, ghost role: map<Pfn, Role>, ghost places: map<Sid, Places>)
    returns (ok: bool, root: Pfn, ghost role': map<Pfn, Role>, ghost places': map<Sid, Places>)
    requires s.Valid() && Sound(s.mem, rt, s.free, role, places)
    requires rt in s.mem && Valid(s.mem[rt][2 * Bus(sid)])
    modifies s
    ensures s.Valid()
    ensures !ok ==> s.free == []
    ensures old(s.free) != [] ==> ok
    ensures ok ==> |old(s.free)| - 1 <= |s.free|
    ensures ok ==>
      && Sound(s.mem, rt, s.free, role', places') && SameForAll(old(s.mem), s.mem, rt)
      && HasContext(s.mem, rt, sid) && ContextFrame(s.mem, rt, sid, root)
  {
    hide SidOk, SameFor;
    ok, role', places' := true, role, places;
    assert BusOk(s.mem, rt, role, Bus(sid));
    var c := s.mem[rt][2 * Bus(sid)].frame;
    var d := Devfn(sid);
    if !Valid(s.mem[c][2 * d]) {
      FreeHead(s.mem, s.freelist, s.free);
      root := AllocPage(s);
      ok := root != 0;
      if !ok {
        return;
      }
      s.mem := s.mem[root := ZeroPage()];
      s.mem := s.mem[c := s.mem[c][2 * d := ContextEntry(root)][2 * d + 1 := ContextDomain(sid)]];
      ThreadedElsewhere(old(s.mem), s.mem, s.freelist, s.free);
      AddContext(old(s.mem), s.mem, rt, old(s.free), s.free, role, places, sid, root);
      role' := role[root := Second(sid)];
      places' := places[sid := map[root := Place(3, 0)]];
    } else {
      root := s.mem[c][2 * d].frame;
      SameForItself(s.mem, rt);
    }
  }

  lemma ReadyToInstall(m: Memory, rt: Pfn, free: seq<Pfn>, role: map<Pfn, Role>, places: map<Sid, Places>, sid: Sid,
                       root: Pfn, c: nat)
    requires Sound(m, rt, free, role, places) && HasContext(m, rt, sid) && InRange(VTD, c)
    requires root == m[ContextTable(m, rt, sid)][2 * Devfn(sid)].frame
    ensures sid in places && Tree(VTD, m, places[sid], root) && Separate(m, free, places[sid], 0)
    ensures OpenPath(VTD, VTD_LINKS, m, root, 3, c, 1)
  {
    assert SidOk(m, rt, places, sid);
    assert OpenAt(m, root, c);
  }

  lemma StillHasContext(m: Memory, m': Memory, rt: Pfn, free: seq<Pfn>, free': seq<Pfn>, role: map<Pfn, Role>,
                        places: map<Sid, Places>, sid: Sid, p: Places)
    requires Sound(m, rt, free, role, places) && HasContext(m, rt, sid) && sid in places
    requires Grown(m, free, places[sid], m', free', p, 0, 2)
    ensures HasContext(m', rt, sid)
    ensures m'[ContextTable(m', rt, sid)][2 * Devfn(sid)] == m[ContextTable(m, rt, sid)][2 * Devfn(sid)]
  {
    assert BusOk(m, rt, role, Bus(sid));
    RestUntouched(m, m', rt, free, free', role, places, sid, p, rt);
    RestUntouched(m, m', rt, free, free', role, places, sid, p, ContextTable(m, rt, sid));
  }

  lemma TakenCount(m: Memory, free: seq<Pfn>, places: Places, m': Memory, free': seq<Pfn>, places': Places)
    requires Grown(m, free, places, m', free', places', 0, 2)
    ensures |free| - 2 <= |free'|
  {
  }

  /** vtd_install_pte at level 1: maps address c of sid to the given page. */
  method InstallPage(s: Machine, rt: Pfn, sid: Sid, root: Pfn, c: nat, page: Pfn,
                     ghost role: map<Pfn, Role>, ghost places: map<Sid, Places>)
    returns (ok: bool, ghost role': map<Pfn, Role>, ghost places': map<Sid, Places>)
    requires s.Valid() && Sound(s.mem, rt, s.free, role, places) && HasContext(s.mem, rt, sid) && InRange(VTD, c)
    requires ContextFrame(s.mem, rt, sid, root)
    modifies s
    ensures s.Valid()
    ensures !ok ==> s.free == []
    ensures |old(s.free)| >= 2 ==> ok
    ensures ok ==> |old(s.free)| - 2 <= |s.free|
    ensures ok ==>
      && Sound(s.mem, rt, s.free, role', places') && HasContext(s.mem, rt, sid) && ContextFrame(s.mem, rt, sid, root)
      && OneMapped(old(s.mem), s.mem, rt, sid, c, page)
  {
    hide Sound, Tree, Separate, OpenPath, Replaced, OpenAbove, Grown, OneMapped, Agrees, Threaded, PageEntry;
    role', places' := role, places;
    ReadyToInstall(s.mem, rt, s.free, role, places, sid, root, c);
    VtdAgrees();
    var pt;
    ghost var p;
    ok, pt, p := Install(s, VTD, VTD_LINKS, root, 1, c, PageEntry(page), 0, places[sid]);
    if ok {
      TakenCount(old(s.mem), old(s.free), places[sid], s.mem, s.free, p);
      StillHasContext(old(s.mem), s.mem, rt, old(s.free), s.free, role, places, sid, p);
      InstallForSid(old(s.mem), s.mem, rt, old(s.free), s.free, role, places, sid, p, root, c, page);
      role', places' := WithTables(role, sid, p), places[sid := p];
    }
  }

  /** Maps size bytes from iova on to pa for source id sid. The result ok is false when no page is left for
      a table: the code goes no further then. */
  method VtdMapRange(s: Machine, rt: Pfn, sid: Sid, iova: nat, pa: nat, size: nat,
                     ghost role: map<Pfn, Role>, ghost places: map<Sid, Places>)
    returns (ok: bool, ghost role': map<Pfn, Role>, ghost places': map<Sid, Places>)
    requires s.Valid() && Sound(s.mem, rt, s.free, role, places)
    requires iova % 4096 == 0 && pa % 4096 == 0 && size % 4096 == 0
    requires iova + size <= 0x80_0000_0000 && pa + size <= FRAMES * 4096
    modifies s
    ensures s.Valid()
    ensures !ok ==> s.free == []
    ensures 4096 * |old(s.free)| >= 8192 + 2 * size ==> ok
    ensures ok ==> 4096 * |old(s.free)| <= 4096 * |s.free| + 8192 + 2 * size
    ensures ok ==>
      && Sound(s.mem, rt, s.free, role', places')
      && RangeMapped(old(s.mem), s.mem, rt, sid, iova, pa, size)
  {
    hide Sound, SameForAll, SameFor, RangeMapped, OneMapped, HasContext, Threaded;
    places' := places;
    ok, role' := EnsureContextTable(s, rt, Bus(sid), role, places);
    if !ok {
      return;
    }
    ghost var m1 := s.mem;
    var root;
    ok, root, role', places' := EnsureContext(s, rt, sid, role', places');
    if !ok {
      return;
    }
    SameTwice(old(s.mem), m1, s.mem, rt);
    RangeStart(old(s.mem), s.mem, rt, sid, iova, pa);
    var left: nat := size;
    while left != 0
      invariant left <= size && left % 4096 == 0
      invariant s.Valid() && Sound(s.mem, rt, s.free, role', places') && HasContext(s.mem, rt, sid)
      invariant ContextFrame(s.mem, rt, sid, root)
      invariant 4096 * |old(s.free)| <= 4096 * |s.free| + 8192 + 2 * (size - left)
      invariant RangeMapped(old(s.mem), s.mem, rt, sid, iova, pa, size - left)
      decreases left
    {
      var done := size - left;
      ghost var m2 := s.mem;
      ok, role', places' := InstallPage(s, rt, sid, root, iova + done, (pa + done) / 4096, role', places');
      if !ok {
        return;
      }
      RangeStep(old(s.mem), m2, s.mem, rt, sid, iova, pa, done);
      left := left - 4096;
    }
  }
}
