/** The split virtqueue: the driver offers buffers through a ring of available descriptors, the device gives
    them back through a ring of used ones. Ring indices are 16 bits wide and wrap around. */
module Virtqueue {

  import opened Arithmetic
  import opened Options

  datatype Desc = Desc(addr: nat, len: nat, flags: nat, next: nat)

  datatype UsedElem = UsedElem(id: nat, len: nat)

  /** VRING_DESC_F_NEXT, bit 0 of the flags. */
  predicate HasNext(d: Desc) {
    d.flags % 2 == 1
  }

  predicate RingSize(num: nat) {
    num in {1, 2, 4, 8, 16, 32, 64, 128, 256, 512, 1024, 2048, 4096, 8192, 16384, 32768}
  }

  lemma SizeFacts(num: nat)
    requires RingSize(num)
    ensures 0 < num <= 0x8000
  {
  }

  /** The wrapped index and the count it stands for choose the same slot of the ring. */
  lemma SameSlot(count: nat, num: nat)
    requires RingSize(num)
    ensures count % 0x1_0000 % num == count % num
  {
    var wraps := 0x1_0000 / num;
    WrapsEvenly(num);
    var q := count / 0x1_0000;
    assert num * (wraps * q) == 0x1_0000 * q;
    DropMultiple(wraps * q, num, count % 0x1_0000);
  }

  lemma WrapsEvenly(num: nat)
    requires RingSize(num)
    ensures 0x1_0000 == num * (0x1_0000 / num)
  {
  }

  lemma DropMultiple(k: nat, num: nat, r: nat)
    requires num > 0
    ensures (num * k + r) % num == r % num
  {
    var q := r / num;
    assert num * k + r == num * (k + q) + r % num;
    Quotient(num, k + q, r % num);
  }

  /** Slots less than num apart are different. */
  lemma SlotsDiffer(i: nat, j: nat, num: nat)
    requires num > 0 && i < j < i + num
    ensures i % num != j % num
  {
    var q, p := i / num, j / num;
    assert i == num * q + i % num && j == num * p + j % num;
    if p <= q {
      Scale(num, p, q);
    } else {
      Scale(num, q + 1, p);
    }
  }

  // ---- rings ----

  /** Starting at a count, the ring holds these items one after the other, around its end. */
  ghost predicate RingHolds<T>(ring: seq<T>, start: nat, items: seq<T>) {
    && 0 < |ring| && |items| <= |ring|
    && forall i {:trigger items[i]} :: 0 <= i < |items| ==> ring[(start + i) % |ring|] == items[i]
  }

  /** Writing behind the last item overwrites none of them. */
  lemma RingPush<T>(ring: seq<T>, start: nat, items: seq<T>, x: T)
    requires RingHolds(ring, start, items) && |items| < |ring|
    ensures RingHolds(ring[(start + |items|) % |ring| := x], start, items + [x])
  {
    var slot := (start + |items|) % |ring|;
    var ring', items' := ring[slot := x], items + [x];
    forall i | 0 <= i < |items'| ensures ring'[(start + i) % |ring'|] == items'[i] {
      if i < |items| {
        assert ring[(start + i) % |ring|] == items[i];
        SlotsDiffer(start + i, start + |items|, |ring|);
      }
    }
  }

  lemma RingPop<T>(ring: seq<T>, start: nat, items: seq<T>)
    requires RingHolds(ring, start, items) && 0 < |items|
    ensures RingHolds(ring, start + 1, items[1..]) && ring[start % |ring|] == items[0]
  {
    assert ring[(start + 0) % |ring|] == items[0];
    forall i | 0 <= i < |items[1..]| ensures ring[(start + 1 + i) % |ring|] == items[1..][i] {
      assert items[i + 1] == ring[(start + (i + 1)) % |ring|];
    }
  }

  // ---- what happens to buffers ----

  /** For specifications. Descriptors are free, offered to the device, held by the device, or finished and not
      yet fetched. The counters tell how often each step was taken. Buffers are numbered in the order they are
      added; owner gives the number of the buffer in a descriptor that is not free. */
  datatype Traffic = Traffic(
    free: seq<nat>,
    offered: seq<nat>,
    held: seq<nat>,
    finished: seq<UsedElem>,
    sent: nat,
    taken: nat,
    done: nat,
    got: nat,
    buffers: seq<nat>,
    owner: map<nat, nat>,
    returned: set<nat>)

  function Ids(s: seq<UsedElem>): (ids: seq<nat>)
    ensures |ids| == |s|
  {
    seq(|s|, i requires 0 <= i < |s| => s[i].id)
  }

  ghost function Indices(num: nat): (s: set<nat>)
    ensures |s| == num && forall i: nat :: i in s <==> i < num
  {
    if num == 0 then {} else Indices(num - 1) + {num - 1}
  }

  ghost function AllHeads(q: Traffic): multiset<nat> {
    multiset(q.free) + multiset(q.offered) + multiset(q.held) + multiset(Ids(q.finished))
  }

  ghost predicate InFlight(q: Traffic, h: nat) {
    h in q.offered || h in q.held || h in Ids(q.finished)
  }

  /** Buffer n has not come back. */
  ghost predicate Outstanding(q: Traffic, n: nat) {
    exists h :: h in q.owner && q.owner[h] == n
  }

  ghost predicate OwnersOk(q: Traffic) {
    && (forall h :: h in q.owner <==> InFlight(q, h))
    && (forall h :: h in q.owner ==> q.owner[h] < q.sent)
    && (forall h, k :: h in q.owner && k in q.owner && h != k ==> q.owner[h] != q.owner[k])
  }

  /** Every descriptor is in one place; every buffer added is outstanding or was returned, and not both. */
  ghost predicate Sound(num: nat, q: Traffic) {
    && AllHeads(q) == multiset(Indices(num))
    && q.sent == q.taken + |q.offered| && q.taken == q.done + |q.held| && q.done == q.got + |q.finished|
    && |q.buffers| == q.sent
    && OwnersOk(q)
    && (forall n :: n in q.returned ==> n < q.sent)
    && (forall n: nat :: n < q.sent ==> (n in q.returned <==> !Outstanding(q, n)))
  }

  function InOrder(num: nat): (s: seq<nat>)
    ensures |s| == num && forall i :: 0 <= i < num ==> s[i] == i
  {
    seq(num, i requires 0 <= i < num => i)
  }

  function Start(num: nat): Traffic {
    Traffic(InOrder(num), [], [], [], 0, 0, 0, 0, [], map[], {})
  }

  function Added(q: Traffic, buf: nat): Traffic
    requires q.free != []
  {
    q.(free := q.free[1..], offered := q.offered + [q.free[0]], sent := q.sent + 1, buffers := q.buffers + [buf],
       owner := q.owner[q.free[0] := q.sent])
  }

  function Taken(q: Traffic): Traffic
    requires q.offered != []
  {
    q.(offered := q.offered[1..], held := q.held + [q.offered[0]], taken := q.taken + 1)
  }

  function Used(q: Traffic, i: nat, len: nat): Traffic
    requires i < |q.held|
  {
    q.(held := q.held[..i] + q.held[i + 1..], finished := q.finished + [UsedElem(q.held[i], len)], done := q.done + 1)
  }

  function Fetched(q: Traffic): Traffic
    requires q.finished != [] && q.finished[0].id in q.owner
  {
    var h := q.finished[0].id;
    q.(free := [h] + q.free, finished := q.finished[1..], got := q.got + 1,
       owner := map k | k in q.owner && k != h :: q.owner[k], returned := q.returned + {q.owner[h]})
  }

  lemma HeadOf(s: seq<nat>)
    requires s != []
    ensures multiset(s) == multiset{s[0]} + multiset(s[1..])
  {
    assert s == [s[0]] + s[1..];
  }

  lemma Without(s: seq<nat>, i: nat)
    requires i < |s|
    ensures multiset(s) == multiset{s[i]} + multiset(s[..i] + s[i + 1..])
  {
    assert s == s[..i] + ([s[i]] + s[i + 1..]);
  }

  lemma IdsOf(s: seq<UsedElem>, e: UsedElem)
    ensures Ids(s + [e]) == Ids(s) + [e.id]
    ensures s != [] ==> Ids(s) == [s[0].id] + Ids(s[1..])
  {
  }

  /** The free count and the descriptors in flight add up to the size of the ring, and those in flight are the
      buffers added and not yet fetched. */
  lemma Conservation(num: nat, q: Traffic)
    requires Sound(num, q)
    ensures |q.free| + |q.offered| + |q.held| + |q.finished| == num
    ensures q.sent - q.got == num - |q.free|
  {
    assert |AllHeads(q)| == |q.free| + |q.offered| + |q.held| + |q.finished|;
  }

  /** A descriptor is in one place, once. */
  lemma OnePlace(num: nat, q: Traffic, h: nat)
    requires AllHeads(q) == multiset(Indices(num))
    ensures multiset(q.free)[h] + multiset(q.offered)[h] + multiset(q.held)[h] + multiset(Ids(q.finished))[h]
         == if h < num then 1 else 0
  {
    assert AllHeads(q)[h] == multiset(Indices(num))[h];
  }

  lemma StartSound(num: nat)
    ensures Sound(num, Start(num))
  {
    StartMultiset(num);
  }

  lemma InOrderNext(num: nat)
    requires num > 0
    ensures InOrder(num) == InOrder(num - 1) + [num - 1]
  {
  }

  lemma IndicesNext(num: nat)
    requires num > 0
    ensures Indices(num) == Indices(num - 1) + {num - 1}
  {
  }

  lemma OneMore(a: set<nat>, x: nat)
    requires x !in a
    ensures multiset(a + {x}) == multiset(a) + multiset{x}
  {
  }

  lemma {:induction false} StartMultiset(num: nat)
    ensures multiset(InOrder(num)) == multiset(Indices(num))
  {
    hide InOrder, Indices;
    if num > 0 {
      StartMultiset(num - 1);
      InOrderNext(num);
      IndicesNext(num);
      OneMore(Indices(num - 1), num - 1);
    }
  }

  lemma AddedSound(num: nat, q: Traffic, buf: nat)
    requires Sound(num, q) && q.free != []
    ensures Sound(num, Added(q, buf))
  {
    var q' := Added(q, buf);
    HeadOf(q.free);
    var h := q.free[0];
    OnePlace(num, q, h);
    assert !InFlight(q, h);
    assert forall k :: InFlight(q', k) <==> InFlight(q, k) || k == h;
    forall n: nat | n < q'.sent ensures n in q'.returned <==> !Outstanding(q', n) {
      if n < q.sent {
        forall k | k in q.owner && q.owner[k] == n ensures k in q'.owner && q'.owner[k] == n {
        }
      } else {
        assert q'.owner[h] == n;
      }
    }
  }

  lemma TakenSound(num: nat, q: Traffic)
    requires Sound(num, q) && q.offered != []
    ensures Sound(num, Taken(q))
  {
    var q' := Taken(q);
    HeadOf(q.offered);
    assert forall k :: InFlight(q', k) <==> InFlight(q, k);
    assert forall n :: Outstanding(q', n) <==> Outstanding(q, n);
  }

  lemma UsedSound(num: nat, q: Traffic, i: nat, len: nat)
    requires Sound(num, q) && i < |q.held|
    ensures Sound(num, Used(q, i, len))
  {
    var q' := Used(q, i, len);
    Without(q.held, i);
    IdsOf(q.finished, UsedElem(q.held[i], len));
    forall k ensures k in q.held <==> k in q'.held || k == q.held[i] {
      assert k in q.held <==> k in multiset(q.held);
      assert k in q'.held <==> k in multiset(q'.held);
    }
    assert forall k :: InFlight(q', k) <==> InFlight(q, k);
    assert forall n :: Outstanding(q', n) <==> Outstanding(q, n);
  }

  lemma FetchedHead(num: nat, q: Traffic)
    requires Sound(num, q) && q.finished != []
    ensures
      var h := q.finished[0].id;
      && h in q.owner && q.owner[h] !in q.returned && q.owner[h] < q.sent
      && forall k :: InFlight(q, k) <==> k in q.offered || k in q.held || k in Ids(q.finished[1..]) || k == h
  {
    var h := q.finished[0].id;
    IdsOf(q.finished, q.finished[0]);
    assert h in Ids(q.finished);
    assert Outstanding(q, q.owner[h]);
  }

  lemma HeadLeaves(num: nat, q: Traffic)
    requires AllHeads(q) == multiset(Indices(num)) && q.finished != []
    ensures
      var h := q.finished[0].id;
      h !in q.offered && h !in q.held && h !in Ids(q.finished[1..])
  {
    var h := q.finished[0].id;
    IdsOf(q.finished, q.finished[0]);
    OnePlace(num, q, h);
    assert multiset(Ids(q.finished)) == multiset{h} + multiset(Ids(q.finished[1..]));
  }

  lemma FetchedOwners(num: nat, q: Traffic)
    requires Sound(num, q) && q.finished != []
    ensures q.finished[0].id in q.owner && OwnersOk(Fetched(q))
  {
    hide Outstanding, AllHeads;
    FetchedHead(num, q);
    HeadLeaves(num, q);
  }

  lemma FetchedPlaces(num: nat, q: Traffic)
    requires AllHeads(q) == multiset(Indices(num)) && q.finished != [] && q.finished[0].id in q.owner
    ensures AllHeads(Fetched(q)) == multiset(Indices(num))
  {
    IdsOf(q.finished, q.finished[0]);
    assert multiset(Ids(q.finished)) == multiset{q.finished[0].id} + multiset(Ids(q.finished[1..]));
  }

  /** Fetching returns one buffer, for the first time. */
  lemma FetchedSound(num: nat, q: Traffic)
    requires Sound(num, q) && q.finished != []
    ensures q.finished[0].id in q.owner && q.owner[q.finished[0].id] !in q.returned
    ensures Sound(num, Fetched(q))
  {
    hide Outstanding, AllHeads, OwnersOk;
    FetchedHead(num, q);
    FetchedOwners(num, q);
    FetchedPlaces(num, q);
    OwnersDiffer(q);
    forall n: nat | n < q.sent ensures n in Fetched(q).returned <==> !Outstanding(Fetched(q), n) {
      FetchedOutstanding(q, n);
    }
  }

  lemma OwnersDiffer(q: Traffic)
    requires OwnersOk(q)
    ensures forall h, k :: h in q.owner && k in q.owner && h != k ==> q.owner[h] != q.owner[k]
  {
  }

  lemma FetchedOutstanding(q: Traffic, n: nat)
    requires q.finished != [] && q.finished[0].id in q.owner
    requires forall h, k :: h in q.owner && k in q.owner && h != k ==> q.owner[h] != q.owner[k]
    ensures Outstanding(Fetched(q), n) <==> Outstanding(q, n) && n != q.owner[q.finished[0].id]
  {
    var q' := Fetched(q);
    forall k | k in q.owner && q.owner[k] == n && k != q.finished[0].id ensures k in q'.owner && q'.owner[k] == n {
    }
  }

  // ---- the queue ----

  /** The free descriptors are chained in this order. */
  ghost predicate Linked(desc: seq<Desc>, head: nat, free: seq<nat>) {
    && (free != [] ==> head == free[0])
    && (forall i :: 0 <= i < |free| ==> free[i] < |desc|)
    && (forall i {:trigger free[i]} :: 0 <= i < |free| - 1 ==> desc[free[i]].next == free[i + 1])
  }

  /** The descriptors of a buffer are chained in this order; only the last has no next. */
  ghost predicate Chained(desc: seq<Desc>, chain: seq<nat>) {
    && chain != []
    && (forall i :: 0 <= i < |chain| ==> chain[i] < |desc|)
    && (forall i {:trigger chain[i]} :: 0 <= i < |chain| - 1 ==> HasNext(desc[chain[i]]) && desc[chain[i]].next == chain[i + 1])
    && !HasNext(desc[chain[|chain| - 1]])
  }

  /** A descriptor in flight stands alone and belongs to its buffer; the others have none. */
  ghost predicate DescOk(desc: seq<Desc>, data: seq<Option<nat>>, q: Traffic, h: nat)
    requires h < |desc| == |data|
  {
    if h in q.owner then
      q.owner[h] < |q.buffers| && data[h] == Some(q.buffers[q.owner[h]]) && !HasNext(desc[h])
      && desc[h].addr == q.buffers[q.owner[h]]
    else data[h] == None
  }

  ghost predicate DescsOk(desc: seq<Desc>, data: seq<Option<nat>>, q: Traffic) {
    |desc| == |data| && forall h :: 0 <= h < |desc| ==> DescOk(desc, data, q, h)
  }

  /** The 16-bit indices are the counters, wrapped. */
  ghost predicate IndicesOk(availIdx: nat, deviceIdx: nat, usedIdx: nat, lastUsedIdx: nat, q: Traffic) {
    && availIdx == q.sent % 0x1_0000 && deviceIdx == q.taken % 0x1_0000
    && usedIdx == q.done % 0x1_0000 && lastUsedIdx == q.got % 0x1_0000
  }

  /** What the driver, the device and the memory between them hold. */
  class VirtQueue {
    const num: nat
    const desc: array<Desc>
    const data: array<Option<nat>>
    const availRing: array<nat>
    const usedRing: array<UsedElem>
    var availIdx: nat
    var usedIdx: nat
    var numFree: nat
    var freeHead: nat
    var numAdded: nat
    var lastUsedIdx: nat
    var deviceIdx: nat
    ghost var q: Traffic

    ghost predicate Valid()
      reads this, desc, data, availRing, usedRing
    {
      && RingSize(num) && desc.Length == data.Length == availRing.Length == usedRing.Length == num
      && Sound(num, q)
      && numFree == |q.free| && Linked(desc[..], freeHead, q.free)
      && IndicesOk(availIdx, deviceIdx, usedIdx, lastUsedIdx, q)
      && RingHolds(availRing[..], q.taken, q.offered) && RingHolds(usedRing[..], q.got, q.finished)
      && DescsOk(desc[..], data[..], q)
    }

    /** vring_init_virtqueue. The link of the last descriptor stays as it was in memory. */
    constructor (num: nat, desc: array<Desc>, availRing: array<nat>, usedRing: array<UsedElem>)
      requires RingSize(num) && desc.Length == availRing.Length == usedRing.Length == num
      modifies desc
      ensures Valid() && q == Start(num)
      ensures this.num == num && this.desc == desc && this.availRing == availRing && this.usedRing == usedRing
      ensures numFree == num && fresh(data)
    {
      hide Sound;
      this.num, this.desc, this.availRing, this.usedRing := num, desc, availRing, usedRing;
      this.data := new Option<nat>[num](_ => None);
      availIdx, usedIdx, numFree, freeHead, numAdded, lastUsedIdx, deviceIdx := 0, 0, num, 0, 0, 0, 0;
      q := Start(num);
      new;
      var i := 0;
      while i < num - 1
        modifies desc, data
        invariant 0 <= i <= num - 1
        invariant forall j :: 0 <= j < i ==> desc[j].next == j + 1
        invariant forall j :: 0 <= j < num ==> data[j] == None
      {
        desc[i] := desc[i].(next := i + 1);
        data[i] := None;
        i := i + 1;
      }
      data[i] := None;
      StartSound(num);
    }

    /** virtqueue_add_outbuf. */
    method AddOutbuf(buf: nat, len: nat) returns (r: int)
      requires Valid() && len != 0
      modifies this`numFree, this`freeHead, this`availIdx, this`numAdded, this`q, desc, data, availRing
      ensures Valid()
      ensures r == if old(numFree) == 0 then -1 else 0
      ensures if r == 0 then old(q.free) != [] && q == Added(old(q), buf) else q == old(q)
      ensures r == 0 ==>
        && old(freeHead) < num
        && desc[..] == old(desc[..])[old(freeHead) := Desc(buf, len, 0, old(desc[freeHead].next))]
      ensures r == -1 ==> desc[..] == old(desc[..]) && data[..] == old(data[..]) && availRing[..] == old(availRing[..])
    {
      hide Sound, RingHolds, Linked, Added, DescsOk, RingSize;
      if numFree == 0 {
        return -1;
      }
      SizeFacts(num);
      ghost var p := q;
      numFree := numFree - 1;
      var head := freeHead;
      FreeFacts(num, p, desc[..], freeHead);
      ghost var desc0, data0, ring0 := desc[..], data[..], availRing[..];
      desc[head] := Desc(buf, len, 0, desc[head].next);
      freeHead := desc[head].next;
      data[head] := Some(buf);
      SameSlot(p.sent, num);
      SentFacts(num, p);
      var avail := availIdx % num;
      availRing[avail] := head;
      availIdx := (availIdx + 1) % 0x1_0000;
      numAdded := (numAdded + 1) % 0x1_0000_0000;
      q := Added(p, buf);
      AddedSound(num, p, buf);
      RingPush(ring0, p.taken, p.offered, head);
      assert availRing[..] == ring0[p.sent % num := head];
      assert desc[..] == desc0[head := Desc(buf, len, 0, desc0[head].next)];
      assert data[..] == data0[head := Some(buf)];
      LinkedRest(desc0, desc[..], head, p);
      NextIdx(p.sent);
      AddedFacts(p, buf);
      AddedDescs(num, p, buf, len, desc0, data0);
      return 0;
    }

    /** detach_buf: the descriptors of the chain go back to the front of the free list, in their order. */
    method DetachBuf(head: nat, ghost chain: seq<nat>, ghost free: seq<nat>)
      requires desc.Length == data.Length && Chained(desc[..], chain) && chain != [] && chain[0] == head
      requires Linked(desc[..], freeHead, free) && numFree == |free|
      requires forall i, j :: 0 <= i < j < |chain| ==> chain[i] != chain[j]
      requires forall i, j :: 0 <= i < |chain| && 0 <= j < |free| ==> chain[i] != free[j]
      modifies this`numFree, this`freeHead, desc, data
      ensures Linked(desc[..], freeHead, chain + free) && numFree == |chain + free|
      ensures
        var last := chain[|chain| - 1];
        desc[..] == old(desc[..])[last := old(desc[last]).(next := old(freeHead))]
      ensures data[..] == old(data[..])[head := None]
    {
      hide Chained, Linked, HasNext;
      ghost var desc0 := desc[..];
      var i := head;
      ghost var j := 0;
      NextInChain(desc0, chain, j);
      data[head] := None;
      while HasNext(desc[i])
        modifies this`numFree
        invariant 0 <= j < |chain| && i == chain[j] && chain[j] < desc.Length && numFree == |free| + j
        decreases |chain| - j
      {
        NextInChain(desc0, chain, j);
        i := desc[i].next;
        numFree := numFree + 1;
        j := j + 1;
        NextInChain(desc0, chain, j);
      }
      NextInChain(desc0, chain, j);
      LinkChain(desc0, freeHead, chain, free);
      desc[i] := desc[i].(next := freeHead);
      freeHead := head;
      numFree := numFree + 1;
      assert desc[..] == desc0[i := desc0[i].(next := old(freeHead))];
      assert data[..] == old(data[..])[head := None];
    }

    /** virtqueue_get_buf, when a used element is pending. */
    method GetBuf() returns (ret: Option<nat>, len: nat)
      requires Valid() && q.finished != []
      modifies this`numFree, this`freeHead, this`lastUsedIdx, this`q, desc, data
      ensures
        var e, q0 := old(q.finished[0]), old(q);
        && e.id in q0.owner && q0.owner[e.id] < |q0.buffers| && q0.owner[e.id] !in q0.returned
        && ret == Some(q0.buffers[q0.owner[e.id]]) && len == e.len && q == Fetched(q0)
      ensures Valid()
    {
      hide Sound, RingHolds, Linked, DescsOk, RingSize, AllHeads;
      ghost var p := q;
      ghost var desc0, data0 := desc[..], data[..];
      SizeFacts(num);
      SameSlot(p.got, num);
      RingPop(usedRing[..], p.got, p.finished);
      var lastUsed := lastUsedIdx % num;
      assert usedRing[..][lastUsed] == usedRing[lastUsed];
      var i := usedRing[lastUsed].id;
      len := usedRing[lastUsed].len;
      FinishedFacts(num, p, desc0, data0);
      ret := data[i];
      DetachBuf(i, [i], p.free);
      lastUsedIdx := (lastUsedIdx + 1) % 0x1_0000;
      FetchedSound(num, p);
      q := Fetched(p);
      NextIdx(p.got);
      FetchedDescs(num, p, desc0, data0, old(freeHead));
    }

    /** The device reads the next offered descriptor. */
    method DeviceTake() returns (h: nat)
      requires Valid() && q.offered != []
      modifies this`deviceIdx, this`q
      ensures Valid() && q == Taken(old(q)) && h == old(q.offered)[0]
    {
      hide Sound, RingHolds, Linked, DescsOk, RingSize;
      SizeFacts(num);
      SameSlot(q.taken, num);
      RingPop(availRing[..], q.taken, q.offered);
      assert availRing[..][deviceIdx % num] == availRing[deviceIdx % num];
      h := availRing[deviceIdx % num];
      NextIdx(q.taken);
      deviceIdx := (deviceIdx + 1) % 0x1_0000;
      TakenSound(num, q);
      TakenDescs(q, desc[..], data[..]);
      q := Taken(q);
    }

    /** The device is done with one of the descriptors it holds, in any order. */
    method DeviceUse(ghost i: nat, h: nat, len: nat)
      requires Valid() && i < |q.held| && h == q.held[i]
      modifies this`usedIdx, this`q, usedRing
      ensures Valid() && q == Used(old(q), i, len)
    {
      hide Sound, RingHolds, Linked, DescsOk, RingSize;
      ghost var ring0 := usedRing[..];
      SizeFacts(num);
      SameSlot(q.done, num);
      DoneFacts(num, q);
      usedRing[usedIdx % num] := UsedElem(h, len);
      assert usedRing[..] == ring0[q.done % num := UsedElem(h, len)];
      RingPush(ring0, q.got, q.finished, UsedElem(h, len));
      NextIdx(q.done);
      usedIdx := (usedIdx + 1) % 0x1_0000;
      UsedSound(num, q, i, len);
      UsedDescs(q, i, len, desc[..], data[..]);
      q := Used(q, i, len);
    }
  }

  lemma NextInChain(desc: seq<Desc>, chain: seq<nat>, j: nat)
    requires Chained(desc, chain) && j < |chain|
    ensures chain[j] < |desc|
    ensures HasNext(desc[chain[j]]) <==> j + 1 < |chain|
    ensures j + 1 < |chain| ==> desc[chain[j]].next == chain[j + 1]
  {
  }

  lemma LinkChain(desc: seq<Desc>, head: nat, chain: seq<nat>, free: seq<nat>)
    requires Chained(desc, chain) && Linked(desc, head, free)
    requires forall i, j :: 0 <= i < j < |chain| ==> chain[i] != chain[j]
    requires forall i, j :: 0 <= i < |chain| && 0 <= j < |free| ==> chain[i] != free[j]
    ensures
      var last := chain[|chain| - 1];
      Linked(desc[last := desc[last].(next := head)], chain[0], chain + free)
  {
    var last := chain[|chain| - 1];
    var desc', all := desc[last := desc[last].(next := head)], chain + free;
    forall i | 0 <= i < |all| - 1 ensures desc'[all[i]].next == all[i + 1] {
      if i < |chain| - 1 {
        assert desc[chain[i]].next == chain[i + 1];
      } else if |chain| <= i {
        assert desc[free[i - |chain|]].next == free[i - |chain| + 1];
      }
    }
  }

  lemma FinishedFacts(num: nat, q: Traffic, desc: seq<Desc>, data: seq<Option<nat>>)
    requires Sound(num, q) && q.finished != [] && DescsOk(desc, data, q) && |desc| == num
    ensures
      var h := q.finished[0].id;
      && h < num && h in q.owner && q.owner[h] < |q.buffers| && data[h] == Some(q.buffers[q.owner[h]])
      && Chained(desc, [h]) && forall j :: 0 <= j < |q.free| ==> q.free[j] != h
  {
    var h := q.finished[0].id;
    IdsOf(q.finished, q.finished[0]);
    assert h in Ids(q.finished);
    OnePlace(num, q, h);
    assert DescOk(desc, data, q, h);
    forall j | 0 <= j < |q.free| ensures q.free[j] != h {
      assert q.free[j] in multiset(q.free);
    }
  }

  lemma FetchedDescs(num: nat, q: Traffic, desc: seq<Desc>, data: seq<Option<nat>>, next: nat)
    requires Sound(num, q) && q.finished != [] && DescsOk(desc, data, q) && q.finished[0].id < |desc|
    requires q.finished[0].id in q.owner
    ensures
      var h := q.finished[0].id;
      DescsOk(desc[h := desc[h].(next := next)], data[h := None], Fetched(q))
  {
    var h := q.finished[0].id;
    var desc', data' := desc[h := desc[h].(next := next)], data[h := None];
    forall k | 0 <= k < |desc'| ensures DescOk(desc', data', Fetched(q), k) {
      assert DescOk(desc, data, q, k);
    }
  }

  lemma TakenDescs(q: Traffic, desc: seq<Desc>, data: seq<Option<nat>>)
    requires DescsOk(desc, data, q) && q.offered != []
    ensures DescsOk(desc, data, Taken(q))
  {
    forall k | 0 <= k < |desc| ensures DescOk(desc, data, Taken(q), k) {
      assert DescOk(desc, data, q, k);
    }
  }

  lemma UsedDescs(q: Traffic, i: nat, len: nat, desc: seq<Desc>, data: seq<Option<nat>>)
    requires DescsOk(desc, data, q) && i < |q.held|
    ensures DescsOk(desc, data, Used(q, i, len))
  {
    forall k | 0 <= k < |desc| ensures DescOk(desc, data, Used(q, i, len), k) {
      assert DescOk(desc, data, q, k);
    }
  }

  lemma DoneFacts(num: nat, q: Traffic)
    requires Sound(num, q) && q.held != []
    ensures q.done == q.got + |q.finished| && |q.finished| < num
  {
    Conservation(num, q);
  }

  lemma FreeFacts(num: nat, q: Traffic, desc: seq<Desc>, head: nat)
    requires Sound(num, q) && Linked(desc, head, q.free) && q.free != []
    ensures head == q.free[0] && head < |desc| && head !in q.owner && head < num
    ensures forall i :: 0 < i < |q.free| ==> q.free[i] != head
  {
    OnePlace(num, q, head);
    assert !InFlight(q, head);
    HeadOf(q.free);
    forall i | 0 < i < |q.free| ensures q.free[i] != head {
      assert q.free[i] == q.free[1..][i - 1];
      assert q.free[i] in multiset(q.free[1..]);
    }
  }

  lemma SentFacts(num: nat, q: Traffic)
    requires Sound(num, q) && q.free != []
    ensures q.sent == q.taken + |q.offered| && |q.offered| < num
  {
    Conservation(num, q);
  }

  lemma LinkedRest(desc: seq<Desc>, desc': seq<Desc>, head: nat, q: Traffic)
    requires q.free != [] && Linked(desc, head, q.free) && |desc'| == |desc| && head < |desc|
    requires forall i :: 0 <= i < |desc| ==> desc'[i].next == desc[i].next
    ensures Linked(desc', desc'[head].next, q.free[1..])
  {
    forall i | 0 <= i < |q.free[1..]| - 1 ensures desc'[q.free[1..][i]].next == q.free[1..][i + 1] {
      assert desc[q.free[i + 1]].next == q.free[i + 2];
    }
    if |q.free| > 1 {
      assert desc[q.free[0]].next == q.free[1];
    }
  }

  lemma NextIdx(count: nat)
    ensures (count % 0x1_0000 + 1) % 0x1_0000 == (count + 1) % 0x1_0000
  {
  }

  lemma AddedFacts(q: Traffic, buf: nat)
    requires q.free != []
    ensures
      var q' := Added(q, buf);
      && q'.taken == q.taken && q'.done == q.done && q'.got == q.got && q'.sent == q.sent + 1
      && q'.offered == q.offered + [q.free[0]] && q'.finished == q.finished && q'.free == q.free[1..]
  {
  }

  lemma AddedDescs(num: nat, q: Traffic, buf: nat, len: nat, desc: seq<Desc>, data: seq<Option<nat>>)
    requires Sound(num, q) && q.free != [] && DescsOk(desc, data, q) && q.free[0] < |desc|
    ensures
      var h := q.free[0];
      DescsOk(desc[h := Desc(buf, len, 0, desc[h].next)], data[h := Some(buf)], Added(q, buf))
  {
    hide AllHeads;
    var h := q.free[0];
    var desc', data' := desc[h := Desc(buf, len, 0, desc[h].next)], data[h := Some(buf)];
    forall k | 0 <= k < |desc'| ensures DescOk(desc', data', Added(q, buf), k) {
      assert DescOk(desc, data, q, k);
    }
  }

  // ---- whole runs ----

  datatype Op = Add(buf: nat) | Take | Use(i: nat, len: nat) | Fetch

  /** The driver may add when a descriptor is free, and fetch when a used element is pending. */
  predicate Enabled(q: Traffic, op: Op) {
    match op
    case Add(_) => q.free != []
    case Take => q.offered != []
    case Use(i, _) => i < |q.held|
    case Fetch => q.finished != [] && q.finished[0].id in q.owner
  }

  function Step(q: Traffic, op: Op): Traffic
    requires Enabled(q, op)
  {
    match op
    case Add(buf) => Added(q, buf)
    case Take => Taken(q)
    case Use(i, len) => Used(q, i, len)
    case Fetch => Fetched(q)
  }

  /** Driver and device in any order: ops[i] leads from state i to state i + 1. */
  ghost predicate IsRun(num: nat, run: seq<Traffic>, ops: seq<Op>) {
    && |run| == |ops| + 1 && run[0] == Start(num)
    && forall i :: 0 <= i < |ops| ==> IsStep(run, ops, i)
  }

  ghost predicate IsStep(run: seq<Traffic>, ops: seq<Op>, i: nat)
    requires i < |ops| && |run| == |ops| + 1
  {
    Enabled(run[i], ops[i]) && run[i + 1] == Step(run[i], ops[i])
  }

  lemma StepSound(num: nat, q: Traffic, op: Op)
    requires Sound(num, q) && Enabled(q, op)
    ensures Sound(num, Step(q, op))
  {
    hide Sound;
    match op
    case Add(buf) => AddedSound(num, q, buf);
    case Take => TakenSound(num, q);
    case Use(i, len) => UsedSound(num, q, i, len);
    case Fetch => FetchedSound(num, q);
  }

  lemma {:induction false} RunSound(num: nat, run: seq<Traffic>, ops: seq<Op>, i: nat)
    requires IsRun(num, run, ops) && i < |run|
    ensures Sound(num, run[i])
  {
    hide Sound, Step, Enabled;
    if i == 0 {
      StartSound(num);
    } else {
      RunSound(num, run, ops, i - 1);
      assert IsStep(run, ops, i - 1);
      StepSound(num, run[i - 1], ops[i - 1]);
    }
  }

  lemma {:induction false} ReturnedGrows(num: nat, run: seq<Traffic>, ops: seq<Op>, i: nat, j: nat)
    requires IsRun(num, run, ops) && i <= j < |run|
    ensures run[i].returned <= run[j].returned && run[i].buffers <= run[j].buffers
  {
    if i < j {
      ReturnedGrows(num, run, ops, i, j - 1);
      assert IsStep(run, ops, j - 1);
    }
  }

  /** Of a run, no two fetches return the same buffer; each returns one that was added before. */
  lemma EachReturnedOnce(num: nat, run: seq<Traffic>, ops: seq<Op>, i: nat, j: nat)
    requires IsRun(num, run, ops) && i < j < |ops| && ops[i] == Fetch && ops[j] == Fetch
    requires Enabled(run[i], Fetch) && Enabled(run[j], Fetch)
    ensures
      var m, n := run[i].owner[run[i].finished[0].id], run[j].owner[run[j].finished[0].id];
      m != n && m < |run[i].buffers| && n < |run[j].buffers|
  {
    hide AllHeads, InFlight, Outstanding;
    RunSound(num, run, ops, i);
    RunSound(num, run, ops, j);
    assert IsStep(run, ops, i);
    ReturnedGrows(num, run, ops, i + 1, j);
    FetchedSound(num, run[j]);
  }
}
