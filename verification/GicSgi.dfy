/** GICv3: sending a software-generated interrupt to a set of CPUs, by register writes that each reach the
    CPUs of one cluster. */
module GicSgi {

  import opened Arithmetic

  /** A CPU's place in the affinity tree: the bytes of its MPIDR. */
  datatype Mpidr = Mpidr(aff3: nat, aff2: nat, aff1: nat, aff0: nat)

  predicate IsMpidr(m: Mpidr) {
    m.aff3 < 256 && m.aff2 < 256 && m.aff1 < 256 && m.aff0 < 256
  }

  /** CPUs of a cluster differ in Aff0 only. */
  predicate SameCluster(m: Mpidr, k: Mpidr) {
    m.aff3 == k.aff3 && m.aff2 == k.aff2 && m.aff1 == k.aff1
  }

  // ---- the register ICC_SGI1R_EL1 ----

  /** The number whose bits below n are the members of the set. */
  function BitSet(s: set<nat>, n: nat): (v: nat)
    ensures v < Pow2(n)
  {
    if n == 0 then 0 else BitSet(s, n - 1) + if n - 1 in s then Pow2(n - 1) else 0
  }

  predicate Bit(v: nat, b: nat) {
    v / Pow2(b) % 2 == 1
  }

  /** The value written: Aff3 from bit 48, Aff2 from bit 32, the interrupt from bit 24, Aff1 from bit 16, and the
      target list, one bit for each value of Aff0 below 16. */
  function Register(m: Mpidr, irq: nat, targets: set<nat>): nat {
    m.aff3 * 0x1_0000_0000_0000 + m.aff2 * 0x1_0000_0000 + irq * 0x100_0000 + m.aff1 * 0x1_0000 + BitSet(targets, 16)
  }

  /** Bit 40, the interrupt routing mode: if it is set, the interrupt goes to every CPU but the sender. */
  predicate ToAllOthers(v: nat) {
    v / 0x100_0000_0000 % 2 == 1
  }

  /** Bits 47 to 44, the range selector: which group of sixteen values of Aff0 the target list is about. */
  function RangeSelector(v: nat): nat {
    v / 0x1000_0000_0000 % 0x10
  }

  /** The bits above 55, from 43 to 41 and from 31 to 28 are reserved, and must be zero. */
  predicate ReservedAreZero(v: nat) {
    v < 0x100_0000_0000_0000 && v / 0x200_0000_0000 % 8 == 0 && v / 0x1000_0000 % 0x10 == 0
  }

  /** How the interrupt controller reads the register: which CPUs a write addresses by the target list. */
  predicate Addresses(v: nat, m: Mpidr) {
    && !ToAllOthers(v) && RangeSelector(v) == m.aff0 / 16
    && v / 0x1_0000_0000_0000 % 0x100 == m.aff3 && v / 0x1_0000_0000 % 0x100 == m.aff2
    && v / 0x1_0000 % 0x100 == m.aff1 && Bit(v, m.aff0 % 16)
  }

  function Interrupt(v: nat): nat {
    v / 0x100_0000 % 0x10
  }

  /** A write of this interrupt for the CPUs of a target list, with nothing in the reserved bits. */
  predicate TargetedWrite(v: nat, irq: nat) {
    Interrupt(v) == irq && !ToAllOthers(v) && RangeSelector(v) == 0 && ReservedAreZero(v)
  }

  lemma {:induction false} PowAdd(m: nat, n: nat)
    ensures Pow2(m + n) == Pow2(m) * Pow2(n)
  {
    if n > 0 {
      PowAdd(m, n - 1);
      assert Pow2(m) * (2 * Pow2(n - 1)) == 2 * (Pow2(m) * Pow2(n - 1));
    }
  }

  /** The bits from m on. */
  lemma {:induction false} Upper(s: set<nat>, m: nat, n: nat) returns (a: nat)
    requires m <= n
    ensures BitSet(s, n) == Pow2(m) * a + BitSet(s, m)
  {
    if m == n {
      a := 0;
    } else {
      a := Upper(s, m, n - 1);
      if n - 1 in s {
        PowAdd(m, n - 1 - m);
        var k := Pow2(n - 1 - m);
        assert Pow2(m) * (a + k) == Pow2(m) * a + Pow2(m) * k;
        a := a + k;
      }
    }
  }

  /** The digit c of weight p. */
  lemma Digit(p: nat, x: nat, c: nat, r: nat)
    requires r < p && c < 2
    ensures ((2 * p) * x + p * c + r) / p % 2 == c
  {
    assert (2 * p) * x + p * c == p * (2 * x + c);
    Quotient(p, 2 * x + c, r);
  }

  lemma BitOf(s: set<nat>, b: nat, n: nat, high: nat)
    requires b < n
    ensures Bit(Pow2(n) * high + BitSet(s, n), b) <==> b in s
  {
    var a := Upper(s, b + 1, n);
    var p, k, c := Pow2(b), Pow2(n - (b + 1)), if b in s then 1 else 0;
    PowAdd(b + 1, n - (b + 1));
    LowBits(s, b);
    hide Pow2, BitSet;
    Assembled(Pow2(n), p, k, high, a, c, BitSet(s, b), BitSet(s, n));
  }

  lemma Assembled(pn: nat, p: nat, k: nat, high: nat, a: nat, c: nat, r: nat, bits: nat)
    requires pn == (2 * p) * k && bits == (2 * p) * a + (p * c + r) && r < p && c < 2
    ensures (pn * high + bits) / p % 2 == c
  {
    Collect(2 * p, k, high, a);
    Digit(p, k * high + a, c, r);
  }

  lemma LowBits(s: set<nat>, b: nat)
    ensures BitSet(s, b + 1) == Pow2(b) * (if b in s then 1 else 0) + BitSet(s, b)
    ensures BitSet(s, b) < Pow2(b) && Pow2(b + 1) == 2 * Pow2(b)
  {
  }

  lemma Collect(p: nat, k: nat, high: nat, a: nat)
    ensures (p * k) * high + p * a == p * (k * high + a)
  {
    assert (p * k) * high == p * (k * high);
  }

  /** What is written decodes to the cluster, the interrupt and the target list. */
  lemma RegisterDecodes(m: Mpidr, irq: nat, targets: set<nat>, k: Mpidr)
    requires IsMpidr(m) && irq < 16
    ensures TargetedWrite(Register(m, irq, targets), irq)
    ensures Addresses(Register(m, irq, targets), k) <==> SameCluster(m, k) && k.aff0 < 16 && k.aff0 in targets
  {
    var v := Register(m, irq, targets);
    PowSixteen();
    var low := BitSet(targets, 16);
    Fields(m.aff3, m.aff2, irq, m.aff1, low);
    Gaps(m.aff3, m.aff2, irq, m.aff1, low);
    if k.aff0 < 16 {
      var high := m.aff3 * 0x1_0000_0000 + m.aff2 * 0x1_0000 + irq * 0x100 + m.aff1;
      assert v == 0x1_0000 * high + low;
      BitOf(targets, k.aff0, 16, high);
    }
  }

  lemma PowSixteen()
    ensures Pow2(16) == 0x1_0000
  {
    PowAdd(8, 8);
    PowAdd(4, 4);
  }

  lemma Fields(aff3: nat, aff2: nat, irq: nat, aff1: nat, low: nat)
    requires aff3 < 256 && aff2 < 256 && irq < 16 && aff1 < 256 && low < 0x1_0000
    ensures
      var v := aff3 * 0x1_0000_0000_0000 + aff2 * 0x1_0000_0000 + irq * 0x100_0000 + aff1 * 0x1_0000 + low;
      && v / 0x1_0000_0000_0000 % 0x100 == aff3 && v / 0x1_0000_0000 % 0x100 == aff2
      && v / 0x100_0000 % 0x10 == irq && v / 0x1_0000 % 0x100 == aff1
  {
    Quotient(0x1_0000_0000_0000, aff3, aff2 * 0x1_0000_0000 + irq * 0x100_0000 + aff1 * 0x1_0000 + low);
    Quotient(0x1_0000_0000, aff3 * 0x1_0000 + aff2, irq * 0x100_0000 + aff1 * 0x1_0000 + low);
    Quotient(0x100, aff3 * 0x100, aff2);
    Quotient(0x100_0000, aff3 * 0x100_0000 + aff2 * 0x100 + irq, aff1 * 0x1_0000 + low);
    Quotient(0x10, aff3 * 0x10_0000 + aff2 * 0x10, irq);
    Quotient(0x1_0000, aff3 * 0x1_0000_0000 + aff2 * 0x1_0000 + irq * 0x100 + aff1, low);
    Quotient(0x100, aff3 * 0x100_0000 + aff2 * 0x100 + irq, aff1);
  }

  /** What lies between the fields. */
  lemma Gaps(aff3: nat, aff2: nat, irq: nat, aff1: nat, low: nat)
    requires aff3 < 256 && aff2 < 256 && irq < 16 && aff1 < 256 && low < 0x1_0000
    ensures
      var v := aff3 * 0x1_0000_0000_0000 + aff2 * 0x1_0000_0000 + irq * 0x100_0000 + aff1 * 0x1_0000 + low;
      ReservedAreZero(v) && !ToAllOthers(v) && RangeSelector(v) == 0
  {
    var rest := irq * 0x100_0000 + aff1 * 0x1_0000 + low;
    Quotient(0x100_0000_0000, aff3 * 0x100, aff2 * 0x1_0000_0000 + rest);
    Quotient(2, aff3 * 0x80, 0);
    Quotient(0x1000_0000_0000, aff3 * 0x10, aff2 * 0x1_0000_0000 + rest);
    Quotient(0x10, aff3, 0);
    Quotient(0x200_0000_0000, aff3 * 0x80, aff2 * 0x1_0000_0000 + rest);
    Quotient(8, aff3 * 0x10, 0);
    Quotient(0x1000_0000, aff3 * 0x10_0000 + aff2 * 0x10, rest);
    Quotient(0x10, aff3 * 0x1_0000 + aff2, 0);
  }

  // ---- the loops ----

  /** cpumask_next: the next member after cpu, or the number of CPUs. */
  method CpumaskNext(cpu: int, mask: set<nat>, nrCpus: nat) returns (next: int)
    requires -1 <= cpu <= nrCpus
    ensures cpu <= next <= nrCpus && (cpu < nrCpus ==> cpu < next)
    ensures forall c: nat :: cpu < c < next ==> c !in mask
    ensures cpu < next < nrCpus ==> next in mask
  {
    next := cpu;
    while next < nrCpus
      invariant cpu <= next <= nrCpus
      invariant forall c: nat :: cpu < c <= next ==> c !in mask
      decreases nrCpus - next
    {
      next := next + 1;
      if next in mask {
        break;
      }
    }
  }

  predicate Wanted(dest: set<nat>, cpus: seq<Mpidr>, c: nat) {
    c < |cpus| && c in dest && cpus[c].aff0 < 16
  }

  /** The target list for the wanted CPUs from lo up to hi, all of the same cluster as m. */
  ghost predicate Batch(dest: set<nat>, cpus: seq<Mpidr>, m: Mpidr, targets: set<nat>, lo: nat, hi: nat) {
    && (forall c :: lo <= c < hi && Wanted(dest, cpus, c) ==> SameCluster(m, cpus[c]) && cpus[c].aff0 in targets)
    && (forall b :: b in targets ==> TargetIn(dest, cpus, b, lo, hi))
  }

  ghost predicate TargetIn(dest: set<nat>, cpus: seq<Mpidr>, b: nat, lo: nat, hi: nat) {
    exists c :: lo <= c < hi && Wanted(dest, cpus, c) && cpus[c].aff0 == b
  }

  /** Which part of the CPUs a write is for. */
  datatype Part = Part(mpidr: Mpidr, targets: set<nat>, lo: nat, hi: nat)

  /** The parts follow each other, from the first CPU up to hi. */
  ghost predicate Parts(dest: set<nat>, cpus: seq<Mpidr>, parts: seq<Part>, hi: nat) {
    && (parts == [] ==> hi == 0)
    && (parts != [] ==> parts[0].lo == 0 && parts[|parts| - 1].hi == hi)
    && (forall i {:trigger parts[i]} :: 0 < i < |parts| ==> parts[i].lo == parts[i - 1].hi)
    && (forall i :: 0 <= i < |parts| ==> PartOk(dest, cpus, parts[i]))
  }

  ghost predicate PartOk(dest: set<nat>, cpus: seq<Mpidr>, p: Part) {
    p.lo <= p.hi && IsMpidr(p.mpidr) && Batch(dest, cpus, p.mpidr, p.targets, p.lo, p.hi)
  }

  ghost predicate Writes(irq: nat, parts: seq<Part>, writes: seq<nat>) {
    |writes| == |parts| && forall i :: 0 <= i < |parts| ==> writes[i] == Register(parts[i].mpidr, irq, parts[i].targets)
  }

  lemma NoneWanted(dest: set<nat>, cpus: seq<Mpidr>, m: Mpidr, lo: nat, hi: nat)
    requires forall c: nat :: lo <= c < hi ==> c !in dest
    ensures Batch(dest, cpus, m, {}, lo, hi)
  {
  }

  /** The CPU at hand joins the batch, and so do those up to the next of the mask. */
  lemma BatchAdd(dest: set<nat>, cpus: seq<Mpidr>, m: Mpidr, t: set<nat>, lo: nat, cpu: nat, next: nat)
    requires Batch(dest, cpus, m, t, lo, cpu) && lo <= cpu < next && Wanted(dest, cpus, cpu) && SameCluster(m, cpus[cpu])
    requires forall c: nat :: cpu < c < next ==> c !in dest
    ensures Batch(dest, cpus, m, t + {cpus[cpu].aff0}, lo, next)
  {
    var t' := t + {cpus[cpu].aff0};
    forall b | b in t' ensures TargetIn(dest, cpus, b, lo, next) {
      if b in t {
        assert TargetIn(dest, cpus, b, lo, cpu);
        var c :| lo <= c < cpu && Wanted(dest, cpus, c) && cpus[c].aff0 == b;
        assert c < next;
      }
    }
  }

  lemma BatchSkip(dest: set<nat>, cpus: seq<Mpidr>, m: Mpidr, t: set<nat>, lo: nat, cpu: nat)
    requires Batch(dest, cpus, m, t, lo, cpu) && lo <= cpu && !Wanted(dest, cpus, cpu)
    ensures Batch(dest, cpus, m, t, lo, cpu + 1)
  {
    forall b | b in t ensures TargetIn(dest, cpus, b, lo, cpu + 1) {
      assert TargetIn(dest, cpus, b, lo, cpu);
      var c :| lo <= c < cpu && Wanted(dest, cpus, c) && cpus[c].aff0 == b;
      assert c < cpu + 1;
    }
  }

  lemma PartsAppend(dest: set<nat>, cpus: seq<Mpidr>, irq: nat, parts: seq<Part>, writes: seq<nat>, p: Part)
    requires Parts(dest, cpus, parts, p.lo) && PartOk(dest, cpus, p) && Writes(irq, parts, writes)
    ensures Parts(dest, cpus, parts + [p], p.hi)
    ensures Writes(irq, parts + [p], writes + [Register(p.mpidr, irq, p.targets)])
  {
    hide PartOk, Register;
  }

  ghost predicate DistinctCpus(cpus: seq<Mpidr>) {
    forall c, d :: 0 <= c < d < |cpus| ==> cpus[c] != cpus[d]
  }

  /** A CPU that is wanted is addressed by one write, another CPU by none. */
  ghost predicate ReachedAsWanted(dest: set<nat>, cpus: seq<Mpidr>, writes: seq<nat>, c: nat)
    requires c < |cpus|
  {
    if Wanted(dest, cpus, c) then
      exists i :: 0 <= i < |writes| && Addresses(writes[i], cpus[c])
               && forall j :: 0 <= j < |writes| && j != i ==> !Addresses(writes[j], cpus[c])
    else forall i :: 0 <= i < |writes| ==> !Addresses(writes[i], cpus[c])
  }

  /** gicv3_ipi_send_mask: the inner loop collects the peers of a CPU in its cluster; when it meets a CPU of
      another cluster, it steps back so that the outer loop finds that CPU again. */
  method SendMask(irq: nat, dest: set<nat>, cpus: seq<Mpidr>) returns (writes: seq<nat>)
    requires irq < 16 && forall c :: 0 <= c < |cpus| ==> IsMpidr(cpus[c])
    ensures DistinctCpus(cpus) ==> forall c: nat :: c < |cpus| ==> ReachedAsWanted(dest, cpus, writes, c)
    ensures forall i :: 0 <= i < |writes| ==> TargetedWrite(writes[i], irq)
  {
    hide Batch, Parts, Writes, Register, ReachedAsWanted, TargetedWrite, DistinctCpus;
    writes := [];
    ghost var parts: seq<Part> := [];
    ghost var hi := 0;
    Nothing(dest, cpus, irq);
    var cpu := CpumaskNext(-1, dest, |cpus|);
    while cpu < |cpus|
      invariant 0 <= hi <= |cpus| && 0 <= cpu <= |cpus| && (cpu < |cpus| ==> hi <= cpu && cpu in dest)
      invariant forall c: nat :: hi <= c < cpu ==> c !in dest
      invariant Parts(dest, cpus, parts, hi) && Writes(irq, parts, writes)
      decreases |cpus| - cpu
    {
      ghost var first := cpu;
      var mpidr := cpus[cpu];
      var cluster := mpidr;
      var tlist: set<nat> := {};
      ghost var end := cpu;
      NoneWanted(dest, cpus, cluster, hi, cpu);
      while cpu < |cpus|
        invariant first <= cpu < |cpus| && cpu in dest && mpidr == cpus[cpu] && SameCluster(cluster, mpidr) && end == cpu
        invariant Batch(dest, cpus, cluster, tlist, hi, cpu)
        decreases |cpus| - cpu
      {
        if mpidr.aff0 >= 16 {
          BatchSkip(dest, cpus, cluster, tlist, hi, cpu);
          end := cpu + 1;
          break;
        }
        ghost var here, before := cpu, tlist;
        tlist := tlist + {mpidr.aff0};
        cpu := CpumaskNext(cpu, dest, |cpus|);
        BatchAdd(dest, cpus, cluster, before, hi, here, cpu);
        end := cpu;
        if cpu >= |cpus| {
          break;
        }
        mpidr := cpus[cpu];
        if !SameCluster(cluster, mpidr) {
          cpu := cpu - 1;
          break;
        }
      }
      PartsAppend(dest, cpus, irq, parts, writes, Part(cluster, tlist, hi, end));
      writes := writes + [Register(cluster, irq, tlist)];
      parts := parts + [Part(cluster, tlist, hi, end)];
      hi := end;
      cpu := CpumaskNext(cpu, dest, |cpus|);
    }
    if DistinctCpus(cpus) {
      forall c: nat | c < |cpus| ensures ReachedAsWanted(dest, cpus, writes, c) {
        EachReachedOnce(dest, cpus, irq, writes, parts, hi, c);
      }
    }
    AllInterrupts(dest, cpus, irq, writes, parts, hi);
  }

  ghost predicate NoneFrom(dest: set<nat>, cpus: seq<Mpidr>, hi: nat) {
    forall c: nat :: hi <= c < |cpus| ==> c !in dest
  }

  lemma Nothing(dest: set<nat>, cpus: seq<Mpidr>, irq: nat)
    ensures Parts(dest, cpus, [], 0) && Writes(irq, [], [])
  {
  }

  // ---- who is reached ----

  /** A write addresses exactly the wanted CPUs of its part. */
  lemma PartReaches(dest: set<nat>, cpus: seq<Mpidr>, irq: nat, p: Part, c: nat)
    requires PartOk(dest, cpus, p) && DistinctCpus(cpus) && irq < 16 && c < |cpus|
    ensures Addresses(Register(p.mpidr, irq, p.targets), cpus[c]) <==> Wanted(dest, cpus, c) && p.lo <= c < p.hi
  {
    hide Register, Addresses;
    RegisterDecodes(p.mpidr, irq, p.targets, cpus[c]);
    if SameCluster(p.mpidr, cpus[c]) && cpus[c].aff0 in p.targets {
      assert TargetIn(dest, cpus, cpus[c].aff0, p.lo, p.hi);
      var d :| p.lo <= d < p.hi && Wanted(dest, cpus, d) && cpus[d].aff0 == cpus[c].aff0;
      assert SameCluster(p.mpidr, cpus[d]);
      assert cpus[c] == cpus[d];
      assert !(c < d) && !(d < c);
    }
  }

  lemma {:induction false} PartsOrdered(dest: set<nat>, cpus: seq<Mpidr>, parts: seq<Part>, hi: nat, i: nat, j: nat)
    requires Parts(dest, cpus, parts, hi) && i < j < |parts|
    ensures parts[i].hi <= parts[j].lo
  {
    assert parts[j].lo == parts[j - 1].hi;
    if i < j - 1 {
      PartsOrdered(dest, cpus, parts, hi, i, j - 1);
      assert PartOk(dest, cpus, parts[j - 1]);
    }
  }

  lemma {:induction false} FindPart(dest: set<nat>, cpus: seq<Mpidr>, parts: seq<Part>, hi: nat, c: nat) returns (i: nat)
    requires Parts(dest, cpus, parts, hi) && c < hi
    ensures i < |parts| && parts[i].lo <= c < parts[i].hi
    decreases |parts|
  {
    hide PartOk;
    var last := |parts| - 1;
    if parts[last].lo <= c {
      i := last;
    } else {
      var rest := parts[..last];
      assert parts[last].lo == parts[last - 1].hi;
      forall k | 0 < k < |rest| ensures rest[k].lo == rest[k - 1].hi {
        assert parts[k].lo == parts[k - 1].hi;
      }
      i := FindPart(dest, cpus, rest, parts[last - 1].hi, c);
    }
  }

  /** Each CPU of the mask whose Aff0 is below 16 is addressed by exactly one of the writes, every other CPU by
      none. */
  lemma EachReachedOnce(dest: set<nat>, cpus: seq<Mpidr>, irq: nat, writes: seq<nat>, parts: seq<Part>, hi: nat, c: nat)
    requires Parts(dest, cpus, parts, hi) && NoneFrom(dest, cpus, hi) && Writes(irq, parts, writes)
    requires DistinctCpus(cpus) && irq < 16 && c < |cpus|
    ensures ReachedAsWanted(dest, cpus, writes, c)
  {
    hide PartOk, Addresses, Register, Batch;
    forall i | 0 <= i < |writes|
      ensures Addresses(writes[i], cpus[c]) <==> Wanted(dest, cpus, c) && parts[i].lo <= c < parts[i].hi
    {
      PartReaches(dest, cpus, irq, parts[i], c);
    }
    if Wanted(dest, cpus, c) {
      var i := FindPart(dest, cpus, parts, hi, c);
      forall j | 0 <= j < |writes| && j != i ensures !Addresses(writes[j], cpus[c]) {
        if j < i {
          PartsOrdered(dest, cpus, parts, hi, j, i);
        } else {
          PartsOrdered(dest, cpus, parts, hi, i, j);
        }
      }
    }
  }

  lemma AllInterrupts(dest: set<nat>, cpus: seq<Mpidr>, irq: nat, writes: seq<nat>, parts: seq<Part>, hi: nat)
    requires Parts(dest, cpus, parts, hi) && Writes(irq, parts, writes) && irq < 16
    ensures forall i :: 0 <= i < |writes| ==> TargetedWrite(writes[i], irq)
  {
    hide PartOk, Register, TargetedWrite;
    forall i | 0 <= i < |writes| ensures TargetedWrite(writes[i], irq) {
      PartInterrupt(dest, cpus, irq, parts[i]);
    }
  }

  lemma PartInterrupt(dest: set<nat>, cpus: seq<Mpidr>, irq: nat, p: Part)
    requires PartOk(dest, cpus, p) && irq < 16
    ensures TargetedWrite(Register(p.mpidr, irq, p.targets), irq)
  {
    hide TargetedWrite, Register;
    RegisterDecodes(p.mpidr, irq, p.targets, p.mpidr);
  }
}
