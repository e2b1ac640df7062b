/**
 Block transfers LDM and STM: a state machine that decodes the register list in
 one cycle and then moves one register per cycle (section 4.11 of the ARM7TDMI
 data sheet).  A memory address that is not mapped aborts the transfer.
 */
module ArmBlock {
  import opened Words
  import opened Wrappers
  import opened ArmException

  type Memory = map<Word, Word>

  type Mask = s: seq<bool> | |s| == 16 witness seq(16, _ => false)

  /** The instruction; `user` asks for the registers of the user bank. */
  datatype Ins = Ins(load: bool, pre: bool, up: bool, writeback: bool, user: bool, rn: nat, mask: Mask)

  /** The PC is neither in the list nor the base. */
  predicate Plain(i: Ins) { i.rn < PC && !i.mask[PC] }

  /** `insDataAddress`, `insRd`, `insMultCount` and `insMultWriteback` beside the core, the memory and the run state. */
  datatype Machine = Machine(core: Core, memory: Memory, run: RunState, address: Word, rd: nat, count: nat, wb: Word)

  // ---------------------------------------------------------------- register lists

  /** The registers of the mask from register r on, in ascending order. */
  function List(mask: Mask, r: nat): seq<nat>
    requires r <= 16
    decreases 16 - r
  {
    if r == 16 then [] else if mask[r] then [r] + List(mask, r + 1) else List(mask, r + 1)
  }

  lemma {:induction false} ListIs(mask: Mask, r: nat)
    requires r <= 16
    ensures |List(mask, r)| <= 16 - r
    ensures forall j :: 0 <= j < |List(mask, r)| ==> r <= List(mask, r)[j] < 16 && mask[List(mask, r)[j]]
    ensures forall j, k :: 0 <= j < k < |List(mask, r)| ==> List(mask, r)[j] < List(mask, r)[k]
    ensures forall q: nat :: r <= q < 16 && mask[q] ==> q in List(mask, r)
    decreases 16 - r
  {
    if r < 16 { ListIs(mask, r + 1); }
  }

  /** The lowest listed register from r on. */
  function Next(mask: Mask, r: nat): nat
    requires r <= 16
    decreases 16 - r
  {
    if r == 16 || mask[r] then r else Next(mask, r + 1)
  }

  lemma {:induction false} NextIsHead(mask: Mask, r: nat)
    requires r <= 16
    ensures r <= Next(mask, r) <= 16
    ensures List(mask, r) == if Next(mask, r) == 16 then [] else [Next(mask, r)] + List(mask, Next(mask, r) + 1)
    decreases 16 - r
  {
    if r < 16 && !mask[r] { NextIsHead(mask, r + 1); }
  }

  // ---------------------------------------------------------------- one cycle

  function Size(i: Ins): nat { |List(i.mask, 0)| }

  /** The lowest address that a transfer of n registers uses. */
  function LowestOf(n: nat, up: bool, pre: bool, base: Word): Word
  {
    var first := if up then base else ((base - 4 * n) % TOP + 4) % TOP;
    if !pre then first else if up then (first + 4) % TOP else (first - 4) % TOP
  }

  function NewBaseOf(n: nat, up: bool, base: Word): Word
  {
    if up then (base + 4 * n) % TOP else (base - 4 * n) % TOP
  }

  function Lowest(i: Ins, base: Word): Word { LowestOf(Size(i), i.up, i.pre, base) }

  function NewBase(i: Ins, base: Word): Word { NewBaseOf(Size(i), i.up, base) }

  function Place(s: Core, i: Ins, r: nat): nat
    requires Sound(s) && r < PC
  {
    if i.user then r else Index(s.bank, r)
  }

  /** The decoding cycle. */
  function Prepare(m: Machine, i: Ins): Machine
    requires Sound(m.core) && Plain(i)
  {
    var base := Get(m.core, i.rn);
    Machine(m.core, m.memory, MidMultiple2, Lowest(i, base), Next(i.mask, 0), Size(i), NewBase(i, base))
  }

  /** A memory cycle: one register moves, or the transfer aborts; after the last register the base is written back. */
  function Move(m: Machine, i: Ins, vector: Word): Machine
    requires Sound(m.core) && Plain(i) && m.rd < PC
  {
    if m.address !in m.memory then m.(core := Trap(m.core, Abort, vector), run := Running)
    else
      var p := Place(m.core, i, m.rd);
      var core := if i.load then m.core.(raw := m.core.raw[p := m.memory[m.address]]) else m.core;
      var memory := if i.load then m.memory else m.memory[m.address := m.core.raw[p]];
      if m.count == 1 then
        m.(core := if i.writeback then Put(core, i.rn, m.wb) else core, memory := memory, run := Running)
      else
        Machine(core, memory, m.run, (m.address + 4) % TOP, Next(i.mask, m.rd + 1),
                if m.count > 0 then m.count - 1 else 0, m.wb)
  }

  /** k memory cycles, stopping where the transfer ends. */
  function Cycles(m: Machine, i: Ins, vector: Word, k: nat): Machine
    requires Plain(i)
  {
    if k == 0 then m
    else
      var p := Cycles(m, i, vector, k - 1);
      if p.run == MidMultiple2 && Sound(p.core) && p.rd < PC then Move(p, i, vector) else p
  }

  // ---------------------------------------------------------------- what the cycles achieve

  function Address(low: Word, k: nat): Word { (low + 4 * k) % TOP }

  function Read(mem: Memory, a: Word): Word { if a in mem then mem[a] else 0 }

  /** The core when the first k registers of the list have been loaded from ascending words. */
  function Loaded(s: Core, mem: Memory, i: Ins, list: seq<nat>, low: Word, k: nat): (t: Core)
    requires Sound(s) && k <= |list| && forall j :: 0 <= j < |list| ==> list[j] < PC
    ensures Sound(t) && t.mode == s.mode && t.bank == s.bank
  {
    if k == 0 then s
    else
      var t := Loaded(s, mem, i, list, low, k - 1);
      t.(raw := t.raw[Place(s, i, list[k - 1]) := Read(mem, Address(low, k - 1))])
  }

  /** Memory when the first k registers of the list have been stored to ascending words. */
  function Stored(s: Core, mem: Memory, i: Ins, list: seq<nat>, low: Word, k: nat): (r: Memory)
    requires Sound(s) && k <= |list| && forall j :: 0 <= j < |list| ==> list[j] < PC
    ensures mem.Keys <= r.Keys
  {
    if k == 0 then mem
    else Stored(s, mem, i, list, low, k - 1)[Address(low, k - 1) := s.raw[Place(s, i, list[k - 1])]]
  }

  function CoreAfter(m: Machine, i: Ins, k: nat): (t: Core)
    requires Sound(m.core) && Plain(i) && k <= Size(i)
    ensures Sound(t) && t.mode == m.core.mode && t.bank == m.core.bank
  {
    Listed(i);
    if i.load then Loaded(m.core, m.memory, i, List(i.mask, 0), Low(m, i), k) else m.core
  }

  function MemoryAfter(m: Machine, i: Ins, k: nat): (r: Memory)
    requires Sound(m.core) && Plain(i) && k <= Size(i)
    ensures m.memory.Keys <= r.Keys
  {
    Listed(i);
    if i.load then m.memory else Stored(m.core, m.memory, i, List(i.mask, 0), Low(m, i), k)
  }

  function Low(m: Machine, i: Ins): Word
    requires Sound(m.core) && Plain(i)
  {
    Lowest(i, Get(m.core, i.rn))
  }

  /** The first k words of the block are mapped. */
  ghost predicate MappedTo(m: Machine, i: Ins, k: nat)
    requires Sound(m.core) && Plain(i)
  {
    forall j :: 0 <= j < k ==> Address(Low(m, i), j) in m.memory
  }

  lemma Listed(i: Ins)
    requires Plain(i)
    ensures forall j :: 0 <= j < |List(i.mask, 0)| ==> List(i.mask, 0)[j] < PC
  {
    ListIs(i.mask, 0);
  }

  /** After the k-th register of the list comes the next one. */
  lemma {:induction false} NextListed(mask: Mask, r: nat, k: nat)
    requires r <= 16 && k < |List(mask, r)|
    ensures List(mask, r)[k] < 16 && List(mask, List(mask, r)[k] + 1) == List(mask, r)[k + 1..]
    decreases k
  {
    NextIsHead(mask, r);
    ListIs(mask, r);
    var head := Next(mask, r);
    if k > 0 {
      NextListed(mask, head + 1, k - 1);
      assert List(mask, r)[k + 1..] == List(mask, head + 1)[k..];
    }
  }

  lemma AddressNext(low: Word, k: nat)
    ensures Address(low, k + 1) == (Address(low, k) + 4) % TOP
  {
  }

  /** The machine with k registers moved, about to move the next one at the next word up. */
  function Midway(m: Machine, i: Ins, k: nat): Machine
    requires Sound(m.core) && Plain(i) && k < Size(i)
  {
    Machine(CoreAfter(m, i, k), MemoryAfter(m, i, k), MidMultiple2, Address(Low(m, i), k), List(i.mask, 0)[k],
            Size(i) - k, NewBase(i, Get(m.core, i.rn)))
  }

  lemma AfterOne(m: Machine, i: Ins, k: nat)
    requires Sound(m.core) && Plain(i) && k < Size(i)
    ensures List(i.mask, 0)[k] < PC
    ensures var p, a := Place(m.core, i, List(i.mask, 0)[k]), Address(Low(m, i), k);
            var s, mem := CoreAfter(m, i, k), MemoryAfter(m, i, k);
            && CoreAfter(m, i, k + 1) == (if i.load then s.(raw := s.raw[p := Read(m.memory, a)]) else s)
            && MemoryAfter(m, i, k + 1) == (if i.load then mem else mem[a := s.raw[p]])
  {
    Listed(i);
    hide List, Lowest, Place, Address;
  }

  lemma MoveOne(m: Machine, i: Ins, vector: Word, k: nat)
    requires Sound(m.core) && Plain(i) && k + 1 < Size(i) && Address(Low(m, i), k) in m.memory
    ensures List(i.mask, 0)[k] < PC && Move(Midway(m, i, k), i, vector) == Midway(m, i, k + 1)
  {
    hide List, Next, Low, NewBase, Address, ArmException.Trap, Index, Put, Get;
    assert i.load ==> MemoryAfter(m, i, k) == m.memory;
    hide CoreAfter, MemoryAfter;
    AfterOne(m, i, k);
    NextListed(i.mask, 0, k);
    NextIsHead(i.mask, List(i.mask, 0)[k] + 1);
    AddressNext(Low(m, i), k);
    assert List(i.mask, 0)[k + 1..][0] == List(i.mask, 0)[k + 1];
    var p := Midway(m, i, k);
    SamePlace(m.core, p.core, i, p.rd);
    hide Place;
  }

  lemma SamePlace(s: Core, t: Core, i: Ins, r: nat)
    requires Sound(s) && Sound(t) && s.bank == t.bank && r < PC
    ensures Place(s, i, r) == Place(t, i, r)
  {
  }

  /** Halfway through, the first k registers have moved, one per cycle. */
  lemma {:induction false} MidTransfer(m: Machine, i: Ins, vector: Word, k: nat)
    requires Sound(m.core) && Plain(i) && k < Size(i) && MappedTo(m, i, k)
    ensures Cycles(Prepare(m, i), i, vector, k) == Midway(m, i, k)
  {
    if k == 0 {
      NextIsHead(i.mask, 0);
    } else {
      hide Move, List, Low, Prepare, Place, Address;
      MidTransfer(m, i, vector, k - 1);
      MoveOne(m, i, vector, k - 1);
    }
  }

  /**
   A transfer whose block is mapped takes exactly one memory cycle per register,
   and ends with all registers moved and the base written back if asked.
   */
  lemma Completes(m: Machine, i: Ins, vector: Word)
    requires Sound(m.core) && Plain(i) && Size(i) > 0 && MappedTo(m, i, Size(i))
    ensures forall k: nat :: k < Size(i) ==> Cycles(Prepare(m, i), i, vector, k).run == MidMultiple2
    ensures var r := Cycles(Prepare(m, i), i, vector, Size(i));
            && r.run == Running && r.memory == MemoryAfter(m, i, Size(i))
            && r.core == if i.writeback then Put(CoreAfter(m, i, Size(i)), i.rn, NewBase(i, Get(m.core, i.rn)))
                         else CoreAfter(m, i, Size(i))
  {
    forall k: nat | k < Size(i) ensures Cycles(Prepare(m, i), i, vector, k).run == MidMultiple2 {
      MidTransfer(m, i, vector, k);
    }
    MidTransfer(m, i, vector, Size(i) - 1);
    Listed(i);
    hide List, Lowest, NewBase;
  }

  /** A transfer that meets an unmapped word stops there in the abort handler, with the registers before it moved. */
  lemma Aborts(m: Machine, i: Ins, vector: Word, k: nat)
    requires Sound(m.core) && Plain(i) && k < Size(i) && MappedTo(m, i, k) && Address(Low(m, i), k) !in m.memory
    ensures var r := Cycles(Prepare(m, i), i, vector, k + 1);
            && r.run == Running && r.memory == MemoryAfter(m, i, k)
            && r.core == Trap(CoreAfter(m, i, k), Abort, vector)
  {
    MidTransfer(m, i, vector, k);
    ListIs(i.mask, 0);
    WordsDistinct(Low(m, i), Size(i));
    StoredOutside(m, i, k, Address(Low(m, i), k));
    Listed(i);
    hide List, Lowest, NewBase;
  }

  ghost predicate Distinct(low: Word, n: nat)
  {
    forall j, k :: 0 <= j < k < n ==> Address(low, j) != Address(low, k)
  }

  /** Blocks are short, so their words are always distinct, even around the end of memory. */
  lemma WordsDistinct(low: Word, n: nat)
    requires n <= 16
    ensures Distinct(low, n)
  {
  }

  lemma {:induction false} StoredOutside(m: Machine, i: Ins, k: nat, a: Word)
    requires Sound(m.core) && Plain(i) && k <= Size(i) && forall j :: 0 <= j < k ==> a != Address(Low(m, i), j)
    ensures a in MemoryAfter(m, i, k) <==> a in m.memory
    ensures a in m.memory ==> MemoryAfter(m, i, k)[a] == m.memory[a]
  {
    if k > 0 {
      StoredOutside(m, i, k - 1, a);
    }
  }

  lemma {:induction false} StoredAt(m: Machine, i: Ins, k: nat, j: nat)
    requires Sound(m.core) && Plain(i) && !i.load && j < k <= Size(i)
    ensures List(i.mask, 0)[j] < PC
    ensures Address(Low(m, i), j) in MemoryAfter(m, i, k)
    ensures MemoryAfter(m, i, k)[Address(Low(m, i), j)] == m.core.raw[Place(m.core, i, List(i.mask, 0)[j])]
  {
    Listed(i);
    ListIs(i.mask, 0);
    WordsDistinct(Low(m, i), Size(i));
    if j < k - 1 { StoredAt(m, i, k - 1, j); }
  }

  /** Different registers of the list have different places. */
  lemma PlacesDiffer(s: Core, i: Ins, r: nat, q: nat)
    requires Sound(s) && r < PC && q < PC && r != q
    ensures Place(s, i, r) != Place(s, i, q)
  {
    Banking(s.bank, r, s.bank, q);
  }

  lemma {:induction false} LoadedAt(m: Machine, i: Ins, k: nat, j: nat)
    requires Sound(m.core) && Plain(i) && i.load && j < k <= Size(i)
    ensures List(i.mask, 0)[j] < PC
    ensures CoreAfter(m, i, k).raw[Place(m.core, i, List(i.mask, 0)[j])] == Read(m.memory, Address(Low(m, i), j))
  {
    Listed(i);
    ListIs(i.mask, 0);
    if j < k - 1 {
      LoadedAt(m, i, k - 1, j);
      PlacesDiffer(m.core, i, List(i.mask, 0)[j], List(i.mask, 0)[k - 1]);
    }
  }

  lemma {:induction false} LoadedOutside(m: Machine, i: Ins, k: nat, p: nat)
    requires Sound(m.core) && Plain(i) && k <= Size(i) && p < REGISTERS
    requires forall j :: 0 <= j < k && List(i.mask, 0)[j] < PC ==> p != Place(m.core, i, List(i.mask, 0)[j])
    ensures CoreAfter(m, i, k).raw[p] == m.core.raw[p]
  {
    Listed(i);
    if k > 0 { LoadedOutside(m, i, k - 1, p); }
  }

  // ---------------------------------------------------------------- the user bank

  /** A register as User mode sees it. */
  function UserReg(s: Core, r: nat): Word
    requires Sound(s) && r < BANK_SIZE
  {
    s.raw[Index(BankOf(User), r)]
  }

  /**
   A load into the user bank, from whatever mode: the registers that User mode sees get
   the words of the block, and the current mode's own registers stay as they were.
   */
  lemma LoadsUserBank(m: Machine, i: Ins, vector: Word)
    requires Sound(m.core) && Plain(i) && Size(i) > 0 && MappedTo(m, i, Size(i))
    requires i.load && i.user && !i.writeback
    ensures var r := Cycles(Prepare(m, i), i, vector, Size(i));
            && Sound(r.core) && r.core.mode == m.core.mode && r.core.bank == m.core.bank
            && (forall j :: 0 <= j < Size(i) ==>
                  var q := List(i.mask, 0)[j]; q < PC && UserReg(r.core, q) == Read(m.memory, Address(Low(m, i), j)))
            && (forall q: nat :: q < BANK_SIZE && Index(m.core.bank, q) != Index(BankOf(User), q) ==>
                  Get(r.core, q) == Get(m.core, q))
  {
    Completes(m, i, vector);
    Listed(i);
    var n, c := Size(i), CoreAfter(m, i, Size(i));
    hide Lowest;
    forall j | 0 <= j < n ensures UserReg(c, List(i.mask, 0)[j]) == Read(m.memory, Address(Low(m, i), j)) {
      LoadedAt(m, i, n, j);
    }
    forall q: nat | q < BANK_SIZE && Index(m.core.bank, q) != Index(BankOf(User), q) ensures Get(c, q) == Get(m.core, q) {
      LoadedOutside(m, i, n, Index(m.core.bank, q));
    }
  }

  /** A store from the user bank writes the registers that User mode sees, whatever the mode. */
  lemma StoresUserBank(m: Machine, i: Ins, vector: Word)
    requires Sound(m.core) && Plain(i) && Size(i) > 0 && MappedTo(m, i, Size(i)) && !i.load && i.user
    ensures var r := Cycles(Prepare(m, i), i, vector, Size(i));
            forall j :: 0 <= j < Size(i) ==>
              var a, q := Address(Low(m, i), j), List(i.mask, 0)[j];
              a in r.memory && q < PC && r.memory[a] == UserReg(m.core, q)
  {
    Completes(m, i, vector);
    Listed(i);
    hide Lowest;
    forall j | 0 <= j < Size(i)
      ensures var a, mem := Address(Low(m, i), j), MemoryAfter(m, i, Size(i));
              a in mem && List(i.mask, 0)[j] < PC && mem[a] == UserReg(m.core, List(i.mask, 0)[j])
    {
      StoredAt(m, i, Size(i), j);
    }
  }

  // ---------------------------------------------------------------- interrupts in the middle

  /** The interrupt line is looked at, and is perhaps up. */
  function Polled(m: Machine, up: bool, vector: Word): Machine
    requires Sound(m.core)
  {
    if up && Obeys(m.core, m.run) then m.(core := Trap(m.core, Irq, vector)) else m
  }

  /** Memory cycles with the interrupt line looked at before each of them; `ups` says when it is up. */
  function PolledCycles(m: Machine, i: Ins, abort: Word, irq: Word, ups: seq<bool>): Machine
    requires Plain(i)
  {
    if ups == [] then m
    else
      var p := PolledCycles(m, i, abort, irq, ups[..|ups| - 1]);
      if !Sound(p.core) then p
      else
        var q := Polled(p, ups[|ups| - 1], irq);
        if q.run == MidMultiple2 && Sound(q.core) && q.rd < PC then Move(q, i, abort) else q
  }

  /**
   Interrupt requests before any of its cycles leave a block transfer, complete or
   aborted, exactly as it would be without them: no cycle is lost and none repeated.
   */
  lemma {:induction false} InterruptWaits(m: Machine, i: Ins, abort: Word, irq: Word, ups: seq<bool>)
    requires Sound(m.core) && Plain(i) && |ups| <= Size(i) && (ups != [] ==> MappedTo(m, i, |ups| - 1))
    ensures PolledCycles(Prepare(m, i), i, abort, irq, ups) == Cycles(Prepare(m, i), i, abort, |ups|)
  {
    hide Prepare, Move, List, Lowest, Address, Trap, CoreAfter, MemoryAfter, NewBase;
    if ups != [] {
      var k := |ups| - 1;
      InterruptWaits(m, i, abort, irq, ups[..k]);
      MidTransfer(m, i, abort, k);
    }
  }

  /**
   An interrupt that was requested during a transfer is taken right after its last cycle,
   with every register moved, if the core obeys interrupts at all, and not before.
   */
  lemma TakenAfterwards(m: Machine, i: Ins, abort: Word, irq: Word, ups: seq<bool>)
    requires Sound(m.core) && Plain(i) && 0 < |ups| == Size(i) && MappedTo(m, i, Size(i)) && !i.writeback
    ensures var r := PolledCycles(Prepare(m, i), i, abort, irq, ups);
            && r.run == Running && r.core == CoreAfter(m, i, Size(i)) && r.memory == MemoryAfter(m, i, Size(i))
            && Polled(r, true, irq).core ==
               (if m.core.mode == Irq || m.core.mode == Fiq || Masked(r.core.raw[CPSR]) then r.core
                else Trap(r.core, Irq, irq))
    ensures forall k: nat :: k < Size(i) ==>
              var p := PolledCycles(Prepare(m, i), i, abort, irq, ups[..k]);
              Sound(p.core) && Polled(p, true, irq) == p
  {
    InterruptWaits(m, i, abort, irq, ups);
    Completes(m, i, abort);
    hide Prepare, Move, List, Lowest, Address, Trap, MemoryAfter, NewBase;
    forall k: nat | k < Size(i)
      ensures var p := PolledCycles(Prepare(m, i), i, abort, irq, ups[..k]); Sound(p.core) && Polled(p, true, irq) == p
    {
      InterruptWaits(m, i, abort, irq, ups[..k]);
      MidTransfer(m, i, abort, k);
    }
  }

  // ---------------------------------------------------------------- the base after an abort

  /** The base register is not in the list. */
  predicate BaseApart(i: Ins) { i.rn < PC && !i.mask[i.rn] }

  lemma BasePlace(s: Core, i: Ins, r: nat)
    requires Sound(s) && r < PC && r != i.rn && i.rn < PC
    ensures Index(s.bank, i.rn) != Place(s, i, r)
  {
    Banking(s.bank, i.rn, s.bank, r);
  }

  lemma BaseUntouched(m: Machine, i: Ins, k: nat)
    requires Sound(m.core) && Plain(i) && BaseApart(i) && k <= Size(i)
    ensures Get(CoreAfter(m, i, k), i.rn) == Get(m.core, i.rn)
  {
    ListIs(i.mask, 0);
    forall j | 0 <= j < k && List(i.mask, 0)[j] < PC
      ensures Index(m.core.bank, i.rn) != Place(m.core, i, List(i.mask, 0)[j])
    {
      assert i.mask[List(i.mask, 0)[j]];
      BasePlace(m.core, i, List(i.mask, 0)[j]);
    }
    LoadedOutside(m, i, k, Index(m.core.bank, i.rn));
  }

  /**
   After an abort the base register of the interrupted mode still has its value,
   so that the instruction can be run again, unless that register is the link
   register of abort mode itself, which the abort overwrites with the PC.
   */
  lemma AbortKeepsBase(m: Machine, i: Ins, vector: Word, k: nat)
    requires Valid(m.core) && Plain(i) && BaseApart(i) && k < Size(i)
    requires MappedTo(m, i, k) && Address(Low(m, i), k) !in m.memory
    ensures var r := Cycles(Prepare(m, i), i, vector, k + 1).core;
            && Sound(r)
            && (r.raw[Index(m.core.bank, i.rn)] == Get(m.core, i.rn) <==>
                  !(m.core.mode == Abort && i.rn == LR) || Get(CoreAfter(m, i, k), PC) == Get(m.core, i.rn))
  {
    Aborts(m, i, vector, k);
    BaseUntouched(m, i, k);
    var c := CoreAfter(m, i, k);
    TrapPlaces(c, Abort, vector, Index(m.core.bank, i.rn));
    BankOfAbort(m.core.mode, i.rn);
  }

  /** What an exception writes: the saved PC and status in its own bank, the PC and the status. */
  lemma TrapPlaces(s: Core, m: Mode, target: Word, p: nat)
    requires Sound(s) && Handles(m) && p < REGISTERS && p != PC && p != CPSR
    ensures var t := Trap(s, m, target);
            && (p == Index(BankOf(m), LR) ==> t.raw[p] == Get(s, PC))
            && (p != Index(BankOf(m), LR) && p != Index(BankOf(m), SPSR) ==> t.raw[p] == s.raw[p])
  {
    Banking(BankOf(m), LR, BankOf(m), SPSR);
  }

  lemma BankOfAbort(mode: Mode, r: nat)
    requires r < PC
    ensures Index(BankOf(mode), r) != PC && Index(BankOf(mode), r) != CPSR
    ensures Index(BankOf(mode), r) != Index(BankOf(Abort), SPSR)
    ensures Index(BankOf(mode), r) == Index(BankOf(Abort), LR) <==> mode == Abort && r == LR
  {
    Banking(BankOf(mode), r, BankOf(Abort), LR);
    Banking(BankOf(mode), r, BankOf(Abort), SPSR);
  }

  /** The block each addressing mode defines, word by word: upwards from the base, or downwards. */
  lemma BlockWords(i: Ins, base: Word, j: nat)
    requires j < Size(i)
    ensures i.up ==> Address(Lowest(i, base), j) == (base + 4 * (j + One(i.pre))) % TOP
    ensures !i.up ==> Address(Lowest(i, base), Size(i) - 1 - j) == (base - 4 * (j + One(i.pre))) % TOP
  {
    if i.up { UpWord(base, i.pre, Size(i), j); } else { DownWord(base, i.pre, Size(i), j); }
    hide LowestOf, Size;
  }

  lemma UpWord(base: Word, pre: bool, n: nat, j: nat)
    ensures Address(LowestOf(n, true, pre, base), j) == (base + 4 * (j + One(pre))) % TOP
  {
    Wrap(base, 4, 4 * j);
  }

  lemma DownWord(base: Word, pre: bool, n: nat, j: nat)
    requires j < n
    ensures Address(LowestOf(n, false, pre, base), n - 1 - j) == (base - 4 * (j + One(pre))) % TOP
  {
    WrapOne(base - 4 * n, 4);
    Wrap(base - 4 * n + 4, -4, 4 * (n - 1 - j));
  }

  /** Wrapping once at the end is enough. */
  lemma Wrap(x: int, y: int, z: int)
    ensures (x % TOP + z) % TOP == (x + z) % TOP
    ensures ((x % TOP + y) % TOP + z) % TOP == (x + y + z) % TOP
  {
    WrapOne(x, z);
    WrapOne(x, y);
    WrapOne(x % TOP + y, z);
    WrapOne(x, y + z);
  }

  lemma WrapOne(x: int, y: int)
    ensures (x % TOP + y) % TOP == (x + y) % TOP
  {
  }

  // ---------------------------------------------------------------- push, then pop

  /** STMDB rn!, {mask}. */
  function Push(rn: nat, mask: Mask): Ins { Ins(false, true, false, true, false, rn, mask) }

  /** LDMIA rn!, {mask}. */
  function Pop(rn: nat, mask: Mask): Ins { Ins(true, false, true, true, false, rn, mask) }

  function Executed(m: Machine, i: Ins, vector: Word): Machine
    requires Sound(m.core) && Plain(i)
  {
    Cycles(Prepare(m, i), i, vector, Size(i))
  }

  lemma PopBase(rn: nat, mask: Mask, base: Word)
    ensures Lowest(Push(rn, mask), base) == NewBase(Push(rn, mask), base)
    ensures Lowest(Pop(rn, mask), NewBase(Push(rn, mask), base)) == Lowest(Push(rn, mask), base)
    ensures NewBase(Pop(rn, mask), NewBase(Push(rn, mask), base)) == base
  {
    var n := Size(Push(rn, mask));
    assert Size(Pop(rn, mask)) == n;
    DownThenUp(n, base);
    hide Size, LowestOf, NewBaseOf;
  }

  lemma DownThenUp(n: nat, base: Word)
    ensures LowestOf(n, false, true, base) == NewBaseOf(n, false, base)
    ensures LowestOf(n, true, false, NewBaseOf(n, false, base)) == NewBaseOf(n, false, base)
    ensures NewBaseOf(n, true, NewBaseOf(n, false, base)) == base
  {
    Wrap(base - 4 * n, 4, -4);
    WrapOne(base - 4 * n, 4 * n);
    Same(base);
  }

  lemma Same(x: Word)
    ensures x % TOP == x
  {
  }

  lemma PushEffect(m: Machine, rn: nat, mask: Mask, vector: Word)
    requires var i := Push(rn, mask);
             Sound(m.core) && Plain(i) && BaseApart(i) && Size(i) > 0 && MappedTo(m, i, Size(i))
    ensures var i := Push(rn, mask); var r := Executed(m, i, vector);
            && r.run == Running && Sound(r.core) && r.core == Put(m.core, rn, NewBase(i, Get(m.core, rn)))
            && r.memory == MemoryAfter(m, i, Size(i))
  {
    Completes(m, Push(rn, mask), vector);
  }

  /**
   A push followed by a pop: whatever happened to the listed registers and to the
   rest of memory in between, the pop restores every listed register and the
   base, and changes neither any other register nor memory.
   */
  lemma PushPop(m: Machine, rn: nat, mask: Mask, vector: Word, between: Machine)
    requires var i := Push(rn, mask);
             Sound(m.core) && Plain(i) && BaseApart(i) && Size(i) > 0 && MappedTo(m, i, Size(i))
    requires var i := Push(rn, mask); var r := Executed(m, i, vector);
             && Sound(between.core) && Sound(r.core)
             && between.core.mode == m.core.mode && between.core.bank == m.core.bank
             && Get(between.core, rn) == Get(r.core, rn)
             && forall j :: 0 <= j < Size(i) ==>
                  var a := Address(Low(m, i), j);
                  a in between.memory && a in r.memory && between.memory[a] == r.memory[a]
    ensures var t := Executed(between, Pop(rn, mask), vector);
            && t.run == Running && t.memory == between.memory && Sound(t.core)
            && Get(t.core, rn) == Get(m.core, rn)
            && (forall r: nat :: r < PC && mask[r] ==> Get(t.core, r) == Get(m.core, r))
            && (forall r: nat :: r < BANK_SIZE && r != rn && (r >= PC || !mask[r]) ==>
                  Get(t.core, r) == Get(between.core, r))
  {
    var i, o := Push(rn, mask), Pop(rn, mask);
    PushEffect(m, rn, mask, vector);
    PopBase(rn, mask, Get(m.core, rn));
    assert Low(between, o) == Low(m, i);
    Completes(between, o, vector);
    var c := CoreAfter(between, o, Size(o));
    forall r: nat | r < BANK_SIZE && r != rn ensures Get(Executed(between, o, vector).core, r) == Get(c, r) {
      Banking(c.bank, r, c.bank, rn);
    }
    forall r: nat | r < PC && mask[r] ensures Get(c, r) == Get(m.core, r) {
      Popped(m, rn, mask, vector, between, r);
    }
    forall r: nat | r < BANK_SIZE && r != rn && (r >= PC || !mask[r]) ensures Get(c, r) == Get(between.core, r) {
      NotPopped(between, o, r);
    }
  }

  lemma Popped(m: Machine, rn: nat, mask: Mask, vector: Word, between: Machine, r: nat)
    requires var i := Push(rn, mask); Sound(m.core) && Plain(i) && BaseApart(i) && Size(i) > 0
    requires Sound(between.core) && between.core.bank == m.core.bank
    requires Low(between, Pop(rn, mask)) == Low(m, Push(rn, mask))
    requires forall j :: 0 <= j < Size(Push(rn, mask)) ==>
               var a := Address(Low(m, Push(rn, mask)), j);
               var mem := MemoryAfter(m, Push(rn, mask), Size(Push(rn, mask)));
               a in between.memory && a in mem && between.memory[a] == mem[a]
    requires r < PC && mask[r]
    ensures Get(CoreAfter(between, Pop(rn, mask), Size(Pop(rn, mask))), r) == Get(m.core, r)
  {
    ListIs(mask, 0);
    var n := |List(mask, 0)|;
    var j :| 0 <= j < n && List(mask, 0)[j] == r;
    LoadedAt(between, Pop(rn, mask), n, j);
    StoredAt(m, Push(rn, mask), n, j);
  }

  lemma NotPopped(m: Machine, i: Ins, r: nat)
    requires Sound(m.core) && Plain(i) && !i.user && r < BANK_SIZE && (r >= PC || !i.mask[r])
    ensures Get(CoreAfter(m, i, Size(i)), r) == Get(m.core, r)
  {
    ListIs(i.mask, 0);
    forall j | 0 <= j < Size(i) && List(i.mask, 0)[j] < PC
      ensures Index(m.core.bank, r) != Place(m.core, i, List(i.mask, 0)[j])
    {
      assert i.mask[List(i.mask, 0)[j]];
      Banking(m.core.bank, r, m.core.bank, List(i.mask, 0)[j]);
    }
    LoadedOutside(m, i, Size(i), Index(m.core.bank, r));
  }

  /** The words below an address, the nearest first. */
  function Beneath(base: Word, j: nat): Word { (base - 4 * (j + 1)) % TOP }

  /** A push touches no memory outside its block: the words just below the old base. */
  lemma PushTouches(m: Machine, rn: nat, mask: Mask, vector: Word, a: Word)
    requires var i := Push(rn, mask);
             Sound(m.core) && Plain(i) && BaseApart(i) && Size(i) > 0 && MappedTo(m, i, Size(i))
    requires var i := Push(rn, mask); forall j: nat :: j < Size(i) ==> a != Beneath(Get(m.core, rn), j)
    ensures var r := Executed(m, Push(rn, mask), vector);
            (a in r.memory <==> a in m.memory) && (a in m.memory ==> r.memory[a] == m.memory[a])
  {
    var i := Push(rn, mask);
    PushEffect(m, rn, mask, vector);
    var n, base := Size(i), Get(m.core, rn);
    hide Executed, Beneath, Address;
    forall j | 0 <= j < n ensures a != Address(Low(m, i), j) {
      PushedWord(base, n, j);
      assert a != Beneath(base, n - 1 - j);
    }
    StoredOutside(m, i, n, a);
  }

  lemma PushedWord(base: Word, n: nat, j: nat)
    requires j < n
    ensures Address(LowestOf(n, false, true, base), j) == Beneath(base, n - 1 - j)
  {
    DownWord(base, true, n, n - 1 - j);
  }

  // ---------------------------------------------------------------- the state machine in place

  class Unit {
    const cpu: Cpu
    var memory: Memory
    var insDataAddress: Word
    var insRd: nat
    var insMultCount: nat
    var insMultWriteback: Word

    ghost function Value(): Machine
      reads this, cpu, cpu.rawReg
    {
      Machine(cpu.Value(), memory, cpu.runState, insDataAddress, insRd, insMultCount, insMultWriteback)
    }

    constructor (cpu: Cpu, memory: Memory)
      ensures this.cpu == cpu && this.memory == memory
    {
      this.cpu, this.memory := cpu, memory;
      insDataAddress, insRd, insMultCount, insMultWriteback := 0, 0, 0, 0;
    }

    /** The decoding cycle: counts the list, finds the lowest address and the lowest register. */
    method DecodeMultiple(i: Ins)
      requires cpu.Ready() && Plain(i) && Size(i) > 0
      modifies this, cpu
      ensures cpu.Ready() && Value() == Prepare(old(Value()), i)
    {
      insMultCount := CountRegisters(i.mask);
      hide List, Next, LowestOf, NewBaseOf;
      insDataAddress, insMultWriteback := Addresses(cpu.rawReg[Index(cpu.currentBank, i.rn)], insMultCount, i);
      insRd := FindRegister(i.mask, 0);
      cpu.runState := MidMultiple2;
    }

    method Addresses(base: Word, n: nat, i: Ins) returns (lowest: Word, wb: Word)
      ensures lowest == LowestOf(n, i.up, i.pre, base) && wb == NewBaseOf(n, i.up, base)
    {
      lowest := base;
      if !i.up {
        wb := (lowest - n * 4) % TOP;
        lowest := (wb + 4) % TOP;
      } else {
        wb := (lowest + 4 * n) % TOP;
      }
      if i.pre {
        if i.up { lowest := (lowest + 4) % TOP; } else { lowest := (lowest - 4) % TOP; }
      }
    }

    method CountRegisters(mask: Mask) returns (n: nat)
      ensures n == |List(mask, 0)|
    {
      n := 0;
      for j := 0 to 16
        invariant n + |List(mask, j)| == |List(mask, 0)|
      {
        if mask[j] { n := n + 1; }
      }
    }

    method FindRegister(mask: Mask, from: nat) returns (r: nat)
      requires from <= 16
      ensures r == Next(mask, from)
    {
      r := from;
      while r < 16 && !mask[r]
        invariant r <= 16 && Next(mask, r) == Next(mask, from)
      {
        r := r + 1;
      }
    }

    /** Looks at the interrupt line, which is up. */
    method Poll(vector: Word) returns (taken: bool)
      requires cpu.Ready()
      modifies cpu, cpu.rawReg
      ensures cpu.Ready() && Value() == Polled(old(Value()), true, vector)
      ensures old(cpu.runState) != Running ==> !taken && Value() == old(Value())
    {
      taken := cpu.HwInterrupt(vector);
    }

    /** A memory cycle, with the abort that an unmapped address causes. */
    method MemoryCycle(i: Ins, vector: Word)
      requires cpu.Ready() && Plain(i) && insRd < PC && insMultCount > 0
      modifies this, cpu, cpu.rawReg
      ensures cpu.Ready() && Value() == Move(old(Value()), i, vector)
    {
      if insDataAddress !in memory {
        cpu.DecodeTrap(Abort, vector);
        cpu.runState := Running;
        return;
      }
      var p := if i.user then insRd else Index(cpu.currentBank, insRd);
      if i.load {
        cpu.rawReg[p] := memory[insDataAddress];
      } else {
        memory := memory[insDataAddress := cpu.rawReg[p]];
      }
      if insMultCount == 1 {
        if i.writeback {
          cpu.WriteReg(i.rn, insMultWriteback);
        }
        cpu.runState := Running;
      } else {
        insDataAddress := (insDataAddress + 4) % TOP;
        insRd := FindRegister(i.mask, insRd + 1);
        insMultCount := insMultCount - 1;
      }
    }
  }
}
