/** The page allocator: free_pages, alloc_page, alloc_pages, free_page. */
module PageAllocator {
  import opened Arithmetic
  import opened PhysMem

  // ---- single pages and freshly freed regions ----

  /** The loop of FreePages: writes the link words of the pages f .. f+pages-1. */
  method LinkRegion(s: Machine, f: Pfn, pages: nat, tail: Pfn)
    requires f != 0 && 0 < pages && f + pages <= FRAMES
    requires forall g :: f <= g < f + pages ==> g in s.mem
    modifies s`mem
    ensures s.mem.Keys == old(s.mem.Keys)
    ensures forall i: nat :: i < pages ==> LinkedAt(s.mem, Consecutive(f, pages), i, tail)
    ensures forall g :: g in s.mem && !(f <= g < f + pages) ==> s.mem[g] == old(s.mem[g])
  {
    var p, end := f, f + pages;
    while p + 1 != end
      invariant f <= p < end
      invariant s.mem.Keys == old(s.mem.Keys)
      invariant forall g :: g in s.mem && !(f <= g < p) ==> s.mem[g] == old(s.mem[g])
      invariant forall g :: f <= g < p ==> s.mem[g][0] == Pointer(g + 1)
      decreases end - p
    {
      s.mem := Store(s.mem, p, 0, Pointer(p + 1));
      p := p + 1;
    }
    s.mem := Store(s.mem, p, 0, Pointer(tail));
  }

  /** Links the pages f .. f+pages-1 in front of the list; size zero empties the list. */
  method FreePages(s: Machine, f: Pfn, pages: nat)
    requires s.Valid()
    requires f != 0 && f + pages <= FRAMES
    requires forall g :: f <= g < f + pages ==> g in s.mem && g !in s.free
    modifies s
    ensures s.Valid()
    ensures s.free == if pages == 0 then [] else Consecutive(f, pages) + old(s.free)
    ensures s.mem.Keys == old(s.mem.Keys)
    ensures forall g :: g in s.mem && !(f <= g < f + pages) ==> s.mem[g] == old(s.mem[g])
  {
    if pages == 0 {
      s.freelist := 0;
      s.free := [];
      return;
    }
    var oldFreelist := s.freelist;
    s.freelist := f;
    LinkRegion(s, f, pages, oldFreelist);
    ghost var front := Consecutive(f, pages);
    ThreadedPrepend(old(s.mem), s.mem, oldFreelist, s.free, front);
    s.free := front + s.free;
  }

  method FreePage(s: Machine, f: Pfn)
    requires s.Valid()
    requires f != 0 && f in s.mem && f !in s.free
    modifies s
    ensures s.Valid()
    ensures s.free == [f] + old(s.free)
    ensures s.mem == Store(old(s.mem), f, 0, Pointer(old(s.freelist)))
  {
    s.mem := Store(s.mem, f, 0, Pointer(s.freelist));
    assert LinkedAt(s.mem, [f], 0, s.freelist);
    ThreadedPrepend(old(s.mem), s.mem, s.freelist, s.free, [f]);
    s.freelist := f;
    s.free := [f] + s.free;
  }

  /** Takes the head of the list, or returns 0 when the list is empty. The page keeps its old
      contents, link word included. */
  method AllocPage(s: Machine) returns (p: Pfn)
    requires s.Valid()
    modifies s
    ensures s.Valid()
    ensures s.mem == old(s.mem)
    ensures old(s.free) == [] ==> p == 0 && s.free == []
    ensures old(s.free) != [] ==> p == old(s.free)[0] && s.free == old(s.free)[1..]
  {
    assert s.free != [] ==> LinkedAt(s.mem, s.free, 0, 0);
    if s.freelist == 0 {
      return 0;
    }
    p := s.freelist;
    ThreadedTail(s.mem, p, s.free);
    s.freelist := s.mem[s.freelist][0].frame;
    s.free := s.free[1..];
  }

  // ---- naturally aligned blocks ----

  predicate Follows(p: nat, q: nat) {
    q == p + 1
  }

  predicate IsAt(q: nat, p: nat, d: int) {
    q == p + d
  }

  /** An aligned run of n pages starts at index k of the list. */
  ghost predicate IsRun(free: seq<Pfn>, n: nat, k: nat)
    requires n > 0
  {
    && k + n <= |free|
    && free[k] % n == 0
    && forall j :: k <= j < k + n ==> IsAt(free[j], free[k], j - k)
  }

  /** The length of the run that the search has collected once it has visited k pages. A page that
      breaks a run is not considered as the start of another one. */
  ghost function RunLength(free: seq<Pfn>, n: nat, k: nat): (r: nat)
    requires n > 0 && k <= |free|
    ensures r <= k
  {
    if k == 0 then 0 else
      var r := RunLength(free, n, k - 1);
      if r == 0 then (if free[k - 1] % n == 0 then 1 else 0)
      else if Follows(free[k - 2], free[k - 1]) then r + 1 else 0
  }

  /** The search stops once it has collected n pages. */
  ghost predicate FoundBy(free: seq<Pfn>, n: nat, k: nat)
    requires n > 0 && k <= |free|
  {
    exists j :: 0 <= j <= k && RunLength(free, n, j) == n
  }

  lemma {:induction false} RunLengthIsRun(free: seq<Pfn>, n: nat, k: nat)
    requires n > 0 && k <= |free|
    ensures var r := RunLength(free, n, k);
      r > 0 ==>
        && RunLength(free, n, k - r) == 0
        && free[k - r] % n == 0
        && forall j :: k - r <= j < k ==> IsAt(free[j], free[k - r], j - (k - r))
  {
    if k > 0 {
      RunLengthIsRun(free, n, k - 1);
    }
  }

  /** Pages k up to k+d are consecutive, and the first is aligned. */
  ghost predicate Begun(free: seq<Pfn>, n: nat, k: nat, d: nat)
    requires n > 0
  {
    0 < d && k + d <= |free| && free[k] % n == 0 && forall j :: k <= j < k + d ==> IsAt(free[j], free[k], j - k)
  }

  lemma {:induction false} RunLengthGrows(free: seq<Pfn>, n: nat, k: nat, d: nat)
    requires n > 0 && Begun(free, n, k, d) && RunLength(free, n, k) == 0
    ensures RunLength(free, n, k + d) == d
  {
    if d > 1 {
      RunLengthGrows(free, n, k, d - 1);
      assert IsAt(free[k + d - 2], free[k], d - 2) && IsAt(free[k + d - 1], free[k], d - 1);
      assert Follows(free[k + d - 2], free[k + d - 1]);
    }
  }

  lemma CompleteRun(free: seq<Pfn>, n: nat, k: nat)
    requires n > 0 && k <= |free| && RunLength(free, n, k) == n
    ensures FoundBy(free, n, |free|) && IsRun(free, n, k - n) && RunLength(free, n, k - n) == 0
  {
    RunLengthIsRun(free, n, k);
  }

  /** Page k is aligned but not looked at as the start of a run: it ends a shorter stretch of consecutive pages, whose
      own first page is aligned and was looked at. */
  ghost predicate Skipped(free: seq<Pfn>, n: nat, k: nat)
    requires n > 0
    decreases k
  {
    exists j: nat :: j < k && k - j < n && Begun(free, n, j, k - j) && !Skipped(free, n, j)
  }

  /** The counter goes up by one at a time: it does not pass n unnoticed. */
  lemma {:induction false} RunLengthBelow(free: seq<Pfn>, n: nat, k: nat, i: nat)
    requires n > 0 && i <= k <= |free| && !FoundBy(free, n, k)
    ensures RunLength(free, n, i) < n
    decreases i
  {
    if i > 0 {
      RunLengthBelow(free, n, k, i - 1);
    }
    assert RunLength(free, n, i) != n;
  }

  lemma FoundEarlier(free: seq<Pfn>, n: nat, j: nat, k: nat)
    requires n > 0 && j <= k <= |free| && FoundBy(free, n, j)
    ensures FoundBy(free, n, k)
  {
  }

  /** The run counter at an aligned page, as long as nothing has been found. */
  lemma {:induction false} StartsUnlessSkipped(free: seq<Pfn>, n: nat, k: nat)
    requires n > 0 && k < |free| && free[k] % n == 0 && !FoundBy(free, n, k)
    ensures RunLength(free, n, k) == 0 <==> !Skipped(free, n, k)
    decreases k
  {
    hide RunLength, FoundBy, IsAt;
    forall j: nat | j < k && free[j] % n == 0 ensures RunLength(free, n, j) == 0 <==> !Skipped(free, n, j) {
      if FoundBy(free, n, j) {
        FoundEarlier(free, n, j, k);
      }
      StartsUnlessSkipped(free, n, j);
    }
    var r := RunLength(free, n, k);
    if r > 0 {
      RunLengthIsRun(free, n, k);
      RunLengthBelow(free, n, k, k);
      SkippedBy(free, n, k, k - r);
    }
    if Skipped(free, n, k) {
      var j: nat :| j < k && k - j < n && Begun(free, n, j, k - j) && !Skipped(free, n, j);
      RunLengthGrows(free, n, j, k - j);
    }
  }

  lemma SkippedBy(free: seq<Pfn>, n: nat, k: nat, j: nat)
    requires n > 0 && j < k && k - j < n && Begun(free, n, j, k - j) && !Skipped(free, n, j)
    ensures Skipped(free, n, k)
  {
  }

  /** The first place where the counter reaches n. */
  lemma {:induction false} FirstFound(free: seq<Pfn>, n: nat, k: nat) returns (j: nat)
    requires n > 0 && k <= |free| && FoundBy(free, n, k)
    ensures j <= k && RunLength(free, n, j) == n && !FoundBy(free, n, j - n)
    decreases k
  {
    j :| 0 <= j <= k && RunLength(free, n, j) == n;
    if FoundBy(free, n, j - n) {
      j := FirstFound(free, n, j - n);
    }
  }

  /** The search succeeds exactly when some aligned run begins at a page that it does not skip. */
  lemma SearchSucceedsIff(free: seq<Pfn>, n: nat)
    requires n > 0
    ensures FoundBy(free, n, |free|) <==> exists k :: IsRun(free, n, k) && !Skipped(free, n, k)
  {
    if FoundBy(free, n, |free|) {
      var j := FirstFound(free, n, |free|);
      CompleteRun(free, n, j);
      StartsUnlessSkipped(free, n, j - n);
    }
    if k: nat :| IsRun(free, n, k) && !Skipped(free, n, k) {
      if !FoundBy(free, n, k) {
        StartsUnlessSkipped(free, n, k);
        RunLengthGrows(free, n, k, n);
      }
    }
  }

  /** On the list that one FreePages call of a whole region leaves behind, the search misses nothing. */
  lemma ContiguousSearchIsComplete(f: Pfn, pages: nat, n: nat)
    requires n > 0 && f + pages <= FRAMES
    ensures var free := Consecutive(f, pages);
      FoundBy(free, n, pages) <==> exists k :: IsRun(free, n, k)
  {
    var free := Consecutive(f, pages);
    if FoundBy(free, n, pages) {
      SearchSucceedsIff(free, n);
    }
    if k: nat :| IsRun(free, n, k) {
      var first := FirstAligned(free, n, k);
      assert first + n <= |free|;
      assert IsRun(free, n, first);
      RunLengthGrows(free, n, first, n);
    }
  }

  lemma {:induction false} FirstAligned(free: seq<Pfn>, n: nat, k: nat) returns (first: nat)
    requires n > 0 && k < |free| && free[k] % n == 0
    ensures first <= k && free[first] % n == 0 && RunLength(free, n, first) == 0
  {
    first := 0;
    while free[first] % n != 0
      invariant first <= k && RunLength(free, n, first) == 0
      decreases k - first
    {
      first := first + 1;
    }
  }

  /** In general an aligned run can be missed: here page 4 breaks the run begun at page 2. */
  lemma SearchCanMissARun()
    ensures var free: seq<Pfn> := [2, 4, 5];
      IsRun(free, 2, 1) && !FoundBy(free, 2, |free|)
  {
    var free: seq<Pfn> := [2, 4, 5];
    assert RunLength(free, 2, 0) == 0;
    assert RunLength(free, 2, 1) == 1;
    assert RunLength(free, 2, 2) == 0;
    assert RunLength(free, 2, 3) == 0;
  }

  lemma FoundByStep(free: seq<Pfn>, n: nat, k: nat)
    requires n > 0 && k < |free|
    ensures FoundBy(free, n, k + 1) <==> FoundBy(free, n, k) || RunLength(free, n, k + 1) == n
  {
  }

  /** Takes the n pages at index at off the list. */
  method Detach(s: Machine, runPrev: Pfn, next: Pfn, ghost at: nat, ghost n: nat)
    requires s.Valid()
    requires 0 < n && at + n <= |s.free|
    requires runPrev == if at == 0 then 0 else s.free[at - 1]
    requires next == Successor(s.free, at + n - 1, 0)
    modifies s
    ensures s.Valid()
    ensures s.free == Cut(old(s.free), at, n)
    ensures s.mem.Keys == old(s.mem.Keys)
    ensures forall g :: g in s.mem && g !in s.free ==> s.mem[g] == old(s.mem[g])
  {
    assert at > 0 ==> LinkedAt(s.mem, s.free, at - 1, 0);
    if runPrev != 0 {
      s.mem := Store(s.mem, runPrev, 0, Pointer(next));
    } else {
      s.freelist := next;
    }
    ThreadedCut(old(s.mem), s.mem, old(s.freelist), s.free, at, n);
    s.free := Cut(s.free, at, n);
    assert at > 0 ==> s.free[at - 1] == runPrev;
  }

  /** The traversal of AllocPages: the first run the search accepts, the page before it and the page
      after it, or runStart == 0. The ghost result is the run's index in the list. */
  method Search(s: Machine, n: nat) returns (runStart: Pfn, runPrev: Pfn, next: Pfn, ghost at: nat)
    requires s.Valid() && n > 0
    ensures runStart != 0 <==> FoundBy(s.free, n, |s.free|)
    ensures runStart != 0 ==>
      && IsRun(s.free, n, at)
      && runStart == s.free[at]
      && runPrev == (if at == 0 then 0 else s.free[at - 1])
      && next == Successor(s.free, at + n - 1, 0)
  {
    ghost var i := 0;
    var prev: Pfn, curr: Pfn, run := 0, 0, 0;
    var runNext: nat := 0;
    runStart, runPrev, next, at := 0, 0, s.freelist, 0;
    while true
      invariant i <= |s.free|
      invariant curr == if i == 0 then 0 else s.free[i - 1]
      invariant next == if i < |s.free| then s.free[i] else 0
      invariant run == RunLength(s.free, n, i) && run < n
      invariant !FoundBy(s.free, n, i)
      invariant run > 0 ==> runStart == s.free[i - run] && Follows(s.free[i - 1], runNext)
      invariant run > 0 ==> runPrev == if i == run then 0 else s.free[i - run - 1]
      decreases |s.free| - i
    {
      prev := curr;
      curr := next;
      assert i < |s.free| ==> LinkedAt(s.mem, s.free, i, 0);
      if curr == 0 {
        assert i == |s.free|;
        runStart := 0;
        return;
      }
      next := s.mem[curr][0].frame;
      FoundByStep(s.free, n, i);
      i := i + 1;
      if run == 0 {
        if curr % n == 0 {
          runStart, runPrev, runNext, run := curr, prev, curr + 1, 1;
        }
      } else if curr == runNext {
        runNext, run := runNext + 1, run + 1;
      } else {
        run := 0;
      }
      if run == n {
        break;
      }
    }
    CompleteRun(s.free, n, i);
    at := i - n;
    assert LinkedAt(s.mem, s.free, at, 0);
  }

  /** Takes 2^order physically contiguous, naturally aligned pages off the list, or returns 0. The
      ghost result is the index in the list at which the block stood. */
  method AllocPages(s: Machine, order: nat) returns (r: Pfn, ghost at: nat)
    requires s.Valid()
    modifies s
    ensures s.Valid()
    ensures r != 0 <==> FoundBy(old(s.free), Pow2(order), |old(s.free)|)
    ensures r == 0 ==> s.free == old(s.free) && s.mem == old(s.mem)
    ensures r != 0 ==>
      && IsRun(old(s.free), Pow2(order), at)
      && r == old(s.free)[at]
      && s.free == Cut(old(s.free), at, Pow2(order))
    ensures s.mem.Keys == old(s.mem.Keys)
    ensures forall g :: g in s.mem && g !in s.free ==> s.mem[g] == old(s.mem[g])
  {
    var n := Pow2(order);
    var runPrev, next;
    r, runPrev, next, at := Search(s, n);
    if r != 0 {
      Detach(s, runPrev, next, at, n);
    }
  }
}
