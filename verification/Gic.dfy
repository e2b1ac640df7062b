/**
 Interrupt selection of the generic interrupt controller (section 3.3 of ARM
 IHI 0048B): which interrupt each CPU and group is offered, and which output
 lines are raised.  A 32-bit register is the sequence of its bits, or of its
 four bytes where it holds one field per interrupt.
 */
module Gic {

  const LIMIT := 1024
  const SPURIOUS := 0x3FF

  type Byte = x: int | 0 <= x < 256
  type Word = s: seq<bool> | |s| == 32 witness seq(32, _ => false)
  type Fields = s: seq<Byte> | |s| == 4 witness [0, 0, 0, 0]

  datatype Group = Group(ia: int, rp: int)

  /** The registers banked per CPU. */
  datatype Cpu = Cpu(ctl: Word, unmasked: Word, igroup: Word, actives: Word, enables: Word,
                     priorities: seq<Fields>, sgiMatrix: seq<Fields>)

  datatype Dist = Dist(enableGrp0: bool, enableGrp1: bool, unmasked: seq<Word>, igroup: seq<Word>, actives: seq<Word>,
                       enables: seq<Word>, priorities: seq<Fields>)

  predicate CpuOk(c: Cpu) { |c.priorities| == 4 && |c.sgiMatrix| == 4 }

  predicate DistOk(d: Dist)
  {
    |d.unmasked| == |d.igroup| == |d.actives| == |d.enables| == LIMIT / 32 && |d.priorities| == LIMIT / 4
  }

  datatype System = System(dist: Dist, cpus: seq<Cpu>)

  ghost predicate Ok(s: System)
  {
    DistOk(s.dist) && |s.cpus| >= 1 && forall n :: 0 <= n < |s.cpus| ==> CpuOk(s.cpus[n])
  }

  // ---------------------------------------------------------------- what an interrupt is, for one CPU

  predicate Requesting(d: Dist, c: Cpu, no: nat)
    requires DistOk(d) && CpuOk(c) && no < LIMIT
  {
    if no < 32 then (no < 16 && c.sgiMatrix[no / 4][no % 4] != 0) || c.actives[no] || c.unmasked[no]
    else d.unmasked[no / 32][no % 32] || d.actives[no / 32][no % 32]
  }

  predicate Enabled(d: Dist, c: Cpu, no: nat)
    requires DistOk(d) && no < LIMIT
  {
    if no < 32 then c.enables[no] else d.enables[no / 32][no % 32]
  }

  function GroupOf(d: Dist, c: Cpu, no: nat): nat
    requires DistOk(d) && no < LIMIT
  {
    if (if no < 32 then c.igroup[no] else d.igroup[no / 32][no % 32]) then 1 else 0
  }

  /** Only the first sixteen interrupts have a priority register of their own per CPU. */
  function Priority(d: Dist, c: Cpu, no: nat): Byte
    requires DistOk(d) && CpuOk(c) && no < LIMIT
  {
    if no < 16 then c.priorities[no / 4][no % 4] else d.priorities[no / 4][no % 4]
  }

  /** Shared peripheral interrupts 32 to 95 go to CPU 0 only. */
  predicate Deliverable(cpuId: nat, no: nat) { 32 <= no <= 95 ==> cpuId == 0 }

  predicate GroupEnabled(d: Dist, c: Cpu, g: nat)
  {
    if g == 1 then d.enableGrp1 && c.ctl[1] else d.enableGrp0 && c.ctl[0]
  }

  predicate Candidate(d: Dist, c: Cpu, cpuId: nat, g: nat, no: nat)
    requires DistOk(d) && CpuOk(c) && no < LIMIT
  {
    && Requesting(d, c, no) && Enabled(d, c, no) && Deliverable(cpuId, no)
    && GroupOf(d, c, no) == g && GroupEnabled(d, c, g)
  }

  /** The lowest-numbered of the best-priority candidates below the limit, or -1. */
  ghost predicate Best(d: Dist, c: Cpu, cpuId: nat, g: nat, limit: nat, no: int)
    requires DistOk(d) && CpuOk(c) && limit <= LIMIT
  {
    if no < 0 then no == -1 && forall m: nat :: m < limit ==> !Candidate(d, c, cpuId, g, m)
    else
      && no < limit && Candidate(d, c, cpuId, g, no)
      && forall m: nat :: m < limit && Candidate(d, c, cpuId, g, m) ==>
           Priority(d, c, no) < Priority(d, c, m) || (Priority(d, c, no) == Priority(d, c, m) && no <= m)
  }

  /** There is at most one best interrupt. */
  lemma BestUnique(d: Dist, c: Cpu, cpuId: nat, g: nat, limit: nat, no: int, other: int)
    requires DistOk(d) && CpuOk(c) && limit <= LIMIT
    requires Best(d, c, cpuId, g, limit, no) && Best(d, c, cpuId, g, limit, other)
    ensures no == other
  {
    if no >= 0 { assert Candidate(d, c, cpuId, g, no); }
    if other >= 0 { assert Candidate(d, c, cpuId, g, other); }
  }

  /** There is always one. */
  lemma {:induction false} BestExists(d: Dist, c: Cpu, cpuId: nat, g: nat, limit: nat) returns (no: int)
    requires DistOk(d) && CpuOk(c) && limit <= LIMIT
    ensures Best(d, c, cpuId, g, limit, no)
  {
    if limit == 0 { no := -1; }
    else {
      no := BestExists(d, c, cpuId, g, limit - 1);
      if Candidate(d, c, cpuId, g, limit - 1) && (no < 0 || Priority(d, c, limit - 1) < Priority(d, c, no)) {
        no := limit - 1;
      }
    }
  }

  /** Distinct groups never offer the same interrupt to a CPU. */
  lemma GroupsDiffer(d: Dist, c: Cpu, cpuId: nat, no: int, other: int)
    requires DistOk(d) && CpuOk(c) && Best(d, c, cpuId, 0, LIMIT, no) && Best(d, c, cpuId, 1, LIMIT, other) && no >= 0
    ensures no != other
  {
  }

  // ---------------------------------------------------------------- the selection

  /** One word of requests: for the first word, the bytes of the software-interrupt matrix, then private lines. */
  method ReadRequestingDisjunction(d: Dist, c: Cpu, sgi: nat) returns (req: Word)
    requires DistOk(d) && CpuOk(c) && sgi < LIMIT / 32
    ensures forall bit :: 0 <= bit < 32 ==> req[bit] == Requesting(d, c, sgi * 32 + bit)
  {
    if sgi == 0 {
      var sgiFlags: seq<bool> := [];
      for i := 0 to 4
        invariant |sgiFlags| == 4 * i
        invariant forall k :: 0 <= k < 4 * i ==> sgiFlags[k] == (c.sgiMatrix[k / 4][k % 4] != 0)
      {
        for j := 0 to 4
          invariant |sgiFlags| == 4 * i + j
          invariant forall k :: 0 <= k < 4 * i + j ==> sgiFlags[k] == (c.sgiMatrix[k / 4][k % 4] != 0)
        {
          sgiFlags := sgiFlags + [c.sgiMatrix[i][j] != 0];
        }
      }
      req := seq(32, k requires 0 <= k < 32 => (k < 16 && sgiFlags[k]) || c.actives[k] || c.unmasked[k]);
    } else {
      req := seq(32, k requires 0 <= k < 32 => d.unmasked[sgi][k] || d.actives[sgi][k]);
    }
  }

  method ReadEnables(d: Dist, c: Cpu, sgi: nat) returns (r: Word)
    requires DistOk(d) && sgi < LIMIT / 32
    ensures forall bit :: 0 <= bit < 32 ==> r[bit] == Enabled(d, c, sgi * 32 + bit)
  {
    if sgi == 0 { r := c.enables; } else { r := d.enables[sgi]; }
  }

  /** leader and lopri hold the best candidate below the limit, and its priority. */
  ghost predicate Leads(d: Dist, c: Cpu, cpuId: nat, g: nat, limit: nat, leader: int, lopri: int)
    requires DistOk(d) && CpuOk(c) && limit <= LIMIT
  {
    Best(d, c, cpuId, g, limit, leader) && (leader >= 0 ==> lopri == Priority(d, c, leader))
  }

  lemma LeadsNext(d: Dist, c: Cpu, cpuId: nat, g: nat, no: nat, leader: int, lopri: int)
    requires DistOk(d) && CpuOk(c) && no < LIMIT && Leads(d, c, cpuId, g, no, leader, lopri)
    ensures if Candidate(d, c, cpuId, g, no) && (leader < 0 || Priority(d, c, no) < lopri)
            then Leads(d, c, cpuId, g, no + 1, no, Priority(d, c, no))
            else Leads(d, c, cpuId, g, no + 1, leader, lopri)
  {
  }

  lemma LeadsSkip(d: Dist, c: Cpu, cpuId: nat, g: nat, from: nat, to: nat, leader: int, lopri: int)
    requires DistOk(d) && CpuOk(c) && from <= to <= LIMIT && Leads(d, c, cpuId, g, from, leader, lopri)
    requires forall no: nat :: from <= no < to ==> !Candidate(d, c, cpuId, g, no)
    ensures Leads(d, c, cpuId, g, to, leader, lopri)
  {
  }

  /** The leaders of one CPU, both groups, carried through one word of interrupts. */
  method ScanWord(d: Dist, c: Cpu, cpuId: nat, sgi: nat, leader: seq<int>, lopri: seq<int>)
    returns (leader': seq<int>, lopri': seq<int>)
    requires DistOk(d) && CpuOk(c) && sgi < LIMIT / 32 && |leader| == |lopri| == 2
    requires forall g :: 0 <= g < 2 ==> Leads(d, c, cpuId, g, 32 * sgi, leader[g], lopri[g])
    ensures |leader'| == |lopri'| == 2
    ensures forall g :: 0 <= g < 2 ==> Leads(d, c, cpuId, g, 32 * sgi + 32, leader'[g], lopri'[g])
  {
    hide Requesting, Enabled, Priority, Leads, Best;
    leader', lopri' := leader, lopri;
    var requests := ReadRequestingDisjunction(d, c, sgi);
    var enables := ReadEnables(d, c, sgi);
    var req := seq(32, k requires 0 <= k < 32 => requests[k] && enables[k]);
    if true !in req {
      forall no: nat, g | 32 * sgi <= no < 32 * sgi + 32 ensures !Candidate(d, c, cpuId, g, no) {
        assert req[no - 32 * sgi] in req;
      }
      LeadsSkip(d, c, cpuId, 0, 32 * sgi, 32 * sgi + 32, leader[0], lopri[0]);
      LeadsSkip(d, c, cpuId, 1, 32 * sgi, 32 * sgi + 32, leader[1], lopri[1]);
      return;
    }
    for bit := 0 to 32
      invariant |leader'| == |lopri'| == 2
      invariant forall g :: 0 <= g < 2 ==> Leads(d, c, cpuId, g, 32 * sgi + bit, leader'[g], lopri'[g])
    {
      var no := sgi * 32 + bit;
      LeadsNext(d, c, cpuId, 0, no, leader'[0], lopri'[0]);
      LeadsNext(d, c, cpuId, 1, no, leader'[1], lopri'[1]);
      if !req[bit] { continue; }
      if 32 <= no <= 95 && cpuId != 0 { continue; }
      var pri, grp := Priority(d, c, no), GroupOf(d, c, no);
      var grpEnabled := if grp == 1 then d.enableGrp1 else d.enableGrp0;
      var cpuEnabled := if grp == 0 then c.ctl[0] else c.ctl[1];
      if cpuEnabled && grpEnabled && (leader'[grp] < 0 || pri < lopri'[grp]) {
        lopri' := lopri'[grp := pri];
        leader' := leader'[grp := no];
      }
    }
  }

  // ---------------------------------------------------------------- distribution to all CPUs

  /** What distribution leaves behind for one CPU. */
  datatype Offer = Offer(groups: seq<Group>, irq: bool, fiq: bool)

  /**
   What each CPU is offered, given its old group registers.  The fast interrupt
   enable is read from CPU 0's control register, at bit 8, whichever CPU is served.
   */
  ghost predicate Offered(s: System, n: nat, before: seq<Group>, o: Offer)
    requires Ok(s) && n < |s.cpus| && |before| == 2
  {
    && |o.groups| == 2
    && (forall g :: 0 <= g < 2 ==>
          exists no: int :: Best(s.dist, s.cpus[n], n, g, LIMIT, no)
            && o.groups[g] == if no < 0 then Group(SPURIOUS, before[g].rp)
                              else Group(no, Priority(s.dist, s.cpus[n], no)))
    && (o.fiq <==> Waiting(s, n, 0) && s.cpus[0].ctl[8])
    && (o.irq <==> Waiting(s, n, 1) || (Waiting(s, n, 0) && !s.cpus[0].ctl[8]))
  }

  /** Some candidate of the group waits for the CPU. */
  ghost predicate Waiting(s: System, n: nat, g: nat)
    requires Ok(s) && n < |s.cpus|
  {
    exists no: nat :: no < LIMIT && Candidate(s.dist, s.cpus[n], n, g, no)
  }

  lemma BestWaits(s: System, n: nat, g: nat, no: int)
    requires Ok(s) && n < |s.cpus| && Best(s.dist, s.cpus[n], n, g, LIMIT, no)
    ensures no >= 0 <==> Waiting(s, n, g)
  {
  }

  /** The number a CPU reads, and its lines, are determined by the registers alone. */
  lemma OfferUnique(s: System, n: nat, before: seq<Group>, o: Offer, other: Offer)
    requires Ok(s) && n < |s.cpus| && |before| == 2 && Offered(s, n, before, o) && Offered(s, n, before, other)
    ensures o == other
  {
    forall g | 0 <= g < 2 ensures o.groups[g] == other.groups[g] {
      var a: int :| Best(s.dist, s.cpus[n], n, g, LIMIT, a)
        && o.groups[g] == if a < 0 then Group(SPURIOUS, before[g].rp) else Group(a, Priority(s.dist, s.cpus[n], a));
      var b: int :| Best(s.dist, s.cpus[n], n, g, LIMIT, b)
        && other.groups[g] == if b < 0 then Group(SPURIOUS, before[g].rp) else Group(b, Priority(s.dist, s.cpus[n], b));
      BestUnique(s.dist, s.cpus[n], n, g, LIMIT, a, b);
    }
    assert o.groups == other.groups;
  }

  /** An output line is raised exactly when some group has an interrupt for the CPU. */
  lemma LineRaised(s: System, n: nat, before: seq<Group>, o: Offer)
    requires Ok(s) && n < |s.cpus| && |before| == 2 && Offered(s, n, before, o)
    ensures o.irq || o.fiq <==> Waiting(s, n, 0) || Waiting(s, n, 1)
    ensures o.irq || o.fiq <==> exists g :: 0 <= g < 2 && Waiting(s, n, g)
  {
  }

  class Controller {
    const system: System
    const groups: array2<Group>
    const irqOut: array<bool>
    const fiqOut: array<bool>

    ghost predicate Valid()
    {
      && Ok(system) && groups.Length0 == irqOut.Length == fiqOut.Length == |system.cpus| && groups.Length1 == 2
      && irqOut != fiqOut
    }

    ghost function Before(n: nat): seq<Group>
      requires Valid() && n < |system.cpus|
      reads groups
    {
      [groups[n, 0], groups[n, 1]]
    }

    ghost function Current(n: nat): Offer
      requires Valid() && n < |system.cpus|
      reads groups, irqOut, fiqOut
    {
      Offer([groups[n, 0], groups[n, 1]], irqOut[n], fiqOut[n])
    }

    constructor (system: System)
      requires Ok(system)
      ensures Valid() && this.system == system && fresh(groups) && fresh(irqOut) && fresh(fiqOut)
    {
      this.system := system;
      groups := new Group[|system.cpus|, 2]((_, _) => Group(SPURIOUS, 0));
      irqOut := new bool[|system.cpus|](_ => false);
      fiqOut := new bool[|system.cpus|](_ => false);
    }

    /** Finds every CPU's leaders, walking the words of interrupts with one CPU after the other inside. */
    method FindLeaders() returns (leader: seq<seq<int>>, lopri: seq<seq<int>>)
      requires Valid()
      ensures |leader| == |lopri| == |system.cpus|
      ensures forall n :: 0 <= n < |system.cpus| ==> |leader[n]| == |lopri[n]| == 2
      ensures forall n, g :: 0 <= n < |system.cpus| && 0 <= g < 2 ==>
                Leads(system.dist, system.cpus[n], n, g, LIMIT, leader[n][g], lopri[n][g])
    {
      var nCpus := |system.cpus|;
      leader, lopri := seq(nCpus, _ => [-1, -1]), seq(nCpus, _ => [0, 0]);
      var cpuId, sgi := 0, 0;
      while sgi < LIMIT / 32
        invariant 0 <= cpuId < nCpus && sgi <= LIMIT / 32 && (sgi == LIMIT / 32 ==> cpuId == 0)
        invariant |leader| == |lopri| == nCpus
        invariant forall n :: 0 <= n < nCpus ==> |leader[n]| == |lopri[n]| == 2
        invariant forall n, g :: 0 <= n < nCpus && 0 <= g < 2 ==>
          Leads(system.dist, system.cpus[n], n, g, 32 * (if n < cpuId then sgi + 1 else sgi), leader[n][g], lopri[n][g])
        decreases LIMIT / 32 - sgi, nCpus - cpuId
      {
        var l, p := ScanWord(system.dist, system.cpus[cpuId], cpuId, sgi, leader[cpuId], lopri[cpuId]);
        leader, lopri := leader[cpuId := l], lopri[cpuId := p];
        if cpuId < nCpus - 1 {
          cpuId := cpuId + 1;
        } else {
          cpuId, sgi := 0, sgi + 1;
        }
      }
    }

    /** Updates the acknowledge and priority registers and drives the output lines. */
    method Distribute()
      requires Valid()
      modifies groups, irqOut, fiqOut
      ensures forall n :: 0 <= n < |system.cpus| ==> Offered(system, n, old(Before(n)), Current(n))
    {
      var leader, lopri := FindLeaders();
      var nCpus := |system.cpus|;
      for n := 0 to nCpus
        invariant forall m :: 0 <= m < n ==> Offered(system, m, old(Before(m)), Current(m))
        invariant forall m, h :: n <= m < nCpus && 0 <= h < 2 ==> groups[m, h] == old(groups[m, h])
      {
        var fiqEn := system.cpus[0].ctl[8];
        var newIrq, newFiq := false, false;
        label Start:
        for g := 0 to 2
          invariant forall m, h :: 0 <= m < nCpus && m != n && 0 <= h < 2 ==> groups[m, h] == old@Start(groups[m, h])
          invariant irqOut[..] == old@Start(irqOut[..]) && fiqOut[..] == old@Start(fiqOut[..])
          invariant newFiq <==> g > 0 && leader[n][0] >= 0 && fiqEn
          invariant newIrq <==> (g > 0 && leader[n][0] >= 0 && !fiqEn) || (g > 1 && leader[n][1] >= 0)
          invariant forall h :: 0 <= h < 2 ==>
            groups[n, h] == if h >= g then old(groups[n, h])
                            else if leader[n][h] >= 0 then Group(leader[n][h], lopri[n][h])
                            else Group(SPURIOUS, old(groups[n, h]).rp)
        {
          if leader[n][g] >= 0 {
            if g == 0 && fiqEn { newFiq := true; } else { newIrq := true; }
            groups[n, g] := Group(leader[n][g], lopri[n][g]);
          } else {
            groups[n, g] := Group(SPURIOUS, groups[n, g].rp);
          }
        }
        fiqOut[n] := newFiq;
        irqOut[n] := newIrq;
        BestWaits(system, n, 0, leader[n][0]);
        BestWaits(system, n, 1, leader[n][1]);
        assert Offered(system, n, old(Before(n)), Current(n));
        assert forall m :: 0 <= m < n ==> Current(m) == old@Start(Current(m));
      }
    }
  }
}
