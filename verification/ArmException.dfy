/**
 Exception entry and return of the ARM core, A32 state only: banked registers,
 mode changes, and the return instruction SUBS pc, lr, #4 (section B1.8 of ARM
 DDI 0406C).  Machine words are integers below 2^32.
 */
module ArmException {
  import opened Words
  import opened Wrappers

  const SP := 13
  const LR := 14
  const PC := 15
  const CPSR := 16
  const SPSR := 17
  const BANK_SIZE := 18
  const REGISTERS := 108

  datatype Mode = User | Fiq | Irq | Supervisor | Abort | Undefined | System

  /** User and System mode share bank 0. */
  function BankOf(m: Mode): (b: nat)
    ensures b < 6
  {
    match m
    case User => 0
    case Fiq => 1
    case Irq => 4
    case Supervisor => 2
    case Abort => 3
    case Undefined => 5
    case System => 0
  }

  /** The mode field of the program status. */
  function Code(m: Mode): nat
  {
    match m
    case User => 0x10
    case Fiq => 0x11
    case Irq => 0x12
    case Supervisor => 0x13
    case Abort => 0x17
    case Undefined => 0x1B
    case System => 0x1F
  }

  function Decode(code: nat): Option<Mode>
  {
    if code == 0x10 then Some(User)
    else if code == 0x11 then Some(Fiq)
    else if code == 0x12 then Some(Irq)
    else if code == 0x13 then Some(Supervisor)
    else if code == 0x17 then Some(Abort)
    else if code == 0x1B then Some(Undefined)
    else if code == 0x1F then Some(System)
    else None
  }

  lemma DecodeCode(m: Mode, code: nat)
    ensures Decode(Code(m)) == Some(m) && 0x10 <= Code(m) < 32
    ensures Decode(code) == Some(m) ==> code == Code(m)
  {
  }

  // ---------------------------------------------------------------- registers

  datatype Core = Core(raw: seq<Word>, mode: Mode, bank: nat)

  ghost predicate Valid(s: Core)
  {
    |s.raw| == REGISTERS && s.bank == BankOf(s.mode) && s.raw[CPSR] % 32 == Code(s.mode)
  }

  /** Where a register of a bank is kept. */
  function Index(bank: nat, r: nat): (i: nat)
    requires bank < 6 && r < BANK_SIZE
    ensures i < REGISTERS
  {
    if bank == 0 || r == PC || r == CPSR then r
    else if bank == 1 then (if r < 8 then r else BANK_SIZE + r)
    else if r < SP then r
    else BANK_SIZE * bank + r
  }

  /** Two registers share a place only if they are the same register of the same bank, or not banked. */
  lemma Banking(b1: nat, r1: nat, b2: nat, r2: nat)
    requires b1 < 6 && b2 < 6 && r1 < BANK_SIZE && r2 < BANK_SIZE
    ensures Index(b1, r1) == Index(b2, r2) <==> r1 == r2 && (b1 == b2 || (Index(b1, r1) == r1 && Index(b2, r2) == r2))
    ensures Index(b1, r1) < BANK_SIZE || Index(b1, r1) / BANK_SIZE == b1
  {
  }

  /** Modes other than User and System have a stack pointer, a link register and a saved status of their own. */
  lemma OwnRegisters(b1: nat, b2: nat, r: nat)
    requires 0 < b1 < 6 && b2 < 6 && b1 != b2 && (r == SP || r == LR || r == SPSR)
    ensures Index(b1, r) != Index(b2, r)
  {
  }

  function Get(s: Core, r: nat): Word
    requires |s.raw| == REGISTERS && s.bank < 6 && r < BANK_SIZE
  {
    s.raw[Index(s.bank, r)]
  }

  function Put(s: Core, r: nat, v: Word): Core
    requires |s.raw| == REGISTERS && s.bank < 6 && r < BANK_SIZE
  {
    s.(raw := s.raw[Index(s.bank, r) := v])
  }

  /** The interrupt mask bit. */
  predicate Masked(cpsr: Word) { cpsr / 128 % 2 == 1 }

  /** The status word with the mode field of m; entering IRQ mode masks interrupts. */
  function Status(cpsr: Word, m: Mode): Word
  {
    var c := cpsr - cpsr % 32 + Code(m);
    if m == Irq && !Masked(c) then c + 128 else c
  }

  function SetMode(s: Core, m: Mode): Core
    requires |s.raw| == REGISTERS
  {
    Core(s.raw[CPSR := Status(s.raw[CPSR], m)], m, BankOf(m))
  }

  // ---------------------------------------------------------------- entry and return

  /** Modes an exception may be taken to: User and System mode have no saved status. */
  predicate Handles(m: Mode) { BankOf(m) != 0 }

  function Trap(s: Core, m: Mode, target: Word): Core
    requires |s.raw| == REGISTERS && s.bank < 6 && Handles(m)
  {
    var prevCpsr, prevPc := Get(s, CPSR), Get(s, PC);
    Put(Put(Put(SetMode(s, m), LR, prevPc), SPSR, prevCpsr), PC, target)
  }

  function SetModeFromCpsr(s: Core): Core
    requires |s.raw| == REGISTERS
  {
    var m := Decode(s.raw[CPSR] % 32);
    if m.Some? then SetMode(s, m.value) else s
  }

  /** SUBS pc, lr, #4: the result plus the pipeline offset goes to the PC, the saved status to the status. */
  function Return(s: Core): Core
    requires |s.raw| == REGISTERS && 0 < s.bank < 6
  {
    var result := (Get(s, LR) - 4) % TOP;
    var s1 := Put(s, PC, (result + 4) % TOP);
    SetModeFromCpsr(Put(s1, CPSR, Get(s1, SPSR)))
  }

  lemma StatusBits(cpsr: Word, m: Mode)
    ensures Status(cpsr, m) % 32 == Code(m)
    ensures Status(cpsr, m) / 256 == cpsr / 256 && Status(cpsr, m) % 128 / 32 == cpsr % 128 / 32
    ensures Masked(Status(cpsr, m)) <==> Masked(cpsr) || m == Irq
    ensures cpsr % 32 == Code(m) && (m == Irq ==> Masked(cpsr)) ==> Status(cpsr, m) == cpsr
    ensures cpsr % 32 == Code(m) && m == Irq && !Masked(cpsr) ==> Status(cpsr, m) == cpsr + 128
  {
    DecodeCode(m, 0);
    NewField(cpsr, Code(m));
    MaskBit(cpsr - cpsr % 32 + Code(m));
  }

  lemma NewField(cpsr: Word, code: nat)
    requires code < 32
    ensures var c := cpsr - cpsr % 32 + code;
            0 <= c < TOP && c % 32 == code && c / 128 == cpsr / 128 && c / 256 == cpsr / 256
            && c % 128 / 32 == cpsr % 128 / 32
  {
    Fields(cpsr);
    Fields(cpsr - cpsr % 32 + code);
    LowField(cpsr / 32, code);
  }

  lemma LowField(q: nat, r: nat)
    requires r < 32
    ensures (32 * q + r) / 32 == q && (32 * q + r) % 32 == r
  {
  }

  lemma Fields(x: nat)
    ensures x / 128 == x / 32 / 4 && x / 256 == x / 32 / 8 && x % 128 / 32 == x / 32 % 4 && x == 32 * (x / 32) + x % 32
  {
  }

  lemma MaskBit(c: Word)
    ensures !Masked(c) ==> c + 128 < TOP && Masked(c + 128) && (c + 128) % 128 == c % 128 && (c + 128) / 256 == c / 256
                           && (c + 128) % 32 == c % 32
  {
    var q, r := c / 128, c % 128;
    Halves(c);
    HighField(q + 1, r);
    Halves(c + 128);
  }

  lemma HighField(q: nat, r: nat)
    requires r < 128
    ensures (128 * q + r) / 128 == q && (128 * q + r) % 128 == r
  {
  }

  lemma Halves(x: nat)
    ensures x / 256 == x / 128 / 2 && x == 128 * (x / 128) + x % 128 && x % 32 == x % 128 % 32
  {
  }

  /** Entry saves the PC and status in the new mode's bank, and leaves every register of the old mode in place. */
  lemma TrapEffect(s: Core, m: Mode, target: Word)
    requires Valid(s) && Handles(m)
    ensures var t := Trap(s, m, target);
            && Valid(t) && t.mode == m && t.bank == BankOf(m)
            && Get(t, LR) == Get(s, PC) && Get(t, SPSR) == Get(s, CPSR) && Get(t, PC) == target
            && (m == Irq ==> Masked(Get(t, CPSR)))
            && forall i :: 0 <= i < REGISTERS && i != PC && i != CPSR
                           && i != Index(BankOf(m), LR) && i != Index(BankOf(m), SPSR)
                 ==> t.raw[i] == s.raw[i]
  {
    StatusBits(s.raw[CPSR], m);
    hide Status, Masked, Code;
  }

  lemma ReturnEffect(s: Core, m: Mode)
    requires |s.raw| == REGISTERS && 0 < s.bank < 6 && Get(s, SPSR) % 32 == Code(m)
    ensures var t := Return(s);
            && Valid(t) && t.mode == m
            && Get(t, PC) == Get(s, LR) && Get(t, CPSR) == Status(Get(s, SPSR), m)
            && forall i :: 0 <= i < REGISTERS && i != PC && i != CPSR ==> t.raw[i] == s.raw[i]
  {
    DecodeCode(m, 0);
    StatusBits(Get(s, SPSR), m);
    hide Status, Masked, Code;
  }

  // ---------------------------------------------------------------- nested handlers

  /** Some register of the bank is kept here. */
  predicate Seen(bank: nat, i: nat)
  {
    var own := i % BANK_SIZE;
    if bank == 0 then i < BANK_SIZE
    else if i < BANK_SIZE then i == PC || i == CPSR || i < (if bank == 1 then 8 else SP)
    else i / BANK_SIZE == bank && own != PC && own != CPSR && own >= (if bank == 1 then 8 else SP)
  }

  lemma SeenIsIndex(bank: nat, i: nat)
    requires bank < 6 && i < REGISTERS
    ensures Seen(bank, i) <==> exists r: nat :: r < BANK_SIZE && Index(bank, r) == i
  {
    if Seen(bank, i) {
      var r := i % BANK_SIZE;
      assert Index(bank, r) == i;
    }
  }

  /** A register kept by a bank in use, or not banked at all. */
  predicate Guarded(i: nat, busy: set<nat>) { i < BANK_SIZE || i / BANK_SIZE in busy }

  /** The same mode and the same contents of every register that the banks in use can see. */
  ghost predicate Agrees(s: Core, t: Core, busy: set<nat>)
    requires |s.raw| == REGISTERS && |t.raw| == REGISTERS
  {
    && s.mode == t.mode && s.bank == t.bank
    && forall i :: 0 <= i < REGISTERS && Guarded(i, busy) ==> t.raw[i] == s.raw[i]
  }

  /**
   What happens in one mode: computation, and exceptions taken and handled to
   completion, each with what its own handler does.
   */
  datatype Script =
    | Done
    | Compute(to: Core, rest: Script)
    | Serve(mode: Mode, target: Word, inner: Script, rest: Script)

  /** Computation keeps the mode and reaches only registers that the mode can see. */
  ghost predicate Computes(s: Core, t: Core)
    requires |s.raw| == REGISTERS && s.bank < 6
  {
    && |t.raw| == REGISTERS && t.mode == s.mode && t.bank == s.bank && t.raw[CPSR] % 32 == s.raw[CPSR] % 32
    && forall i :: 0 <= i < REGISTERS && t.raw[i] != s.raw[i] ==> Seen(s.bank, i)
  }

  /** The handler leaves r0 to r12, its link register and its saved status as it found them. */
  ghost predicate Preserves(a: Core, e: Core)
    requires |a.raw| == REGISTERS && |e.raw| == REGISTERS && a.bank < 6
  {
    && e.mode == a.mode && e.bank == a.bank
    && forall r :: 0 <= r < BANK_SIZE && r != SP && r != PC && r != CPSR ==> Get(e, r) == Get(a, r)
  }

  /** The run of a script from s: every exception is entered, its handler run, and returned from. */
  function Run(s: Core, script: Script): Core
    requires Sound(s)
    decreases script
    ensures Sound(Run(s, script))
  {
    match script
    case Done => s
    case Compute(to, rest) => if Sound(to) then Run(to, rest) else s
    case Serve(m, target, inner, rest) =>
      if !Handles(m) then s
      else
        var e := Run(Trap(s, m, target), inner);
        if e.bank > 0 then Run(Return(e), rest) else s
  }

  predicate Sound(s: Core) { |s.raw| == REGISTERS && s.bank < 6 }

  /**
   A script is well behaved, with the given banks in use, when computations are
   proper, no exception is taken to a mode in use, interrupts are masked
   whenever IRQ mode is interrupted, and handlers preserve what they must.
   */
  ghost predicate Behaved(s: Core, script: Script, busy: set<nat>)
    requires Sound(s)
    decreases script
  {
    match script
    case Done => true
    case Compute(to, rest) => Computes(s, to) && Sound(to) && Behaved(to, rest, busy)
    case Serve(m, target, inner, rest) =>
      && Handles(m) && BankOf(m) !in busy && (s.mode == Irq ==> Masked(s.raw[CPSR]))
      && var a := Trap(s, m, target);
         var e := Run(a, inner);
         && Behaved(a, inner, busy + {BankOf(m)}) && Preserves(a, e)
         && e.bank > 0 && Behaved(Return(e), rest, busy)
  }

  // ---------------------------------------------------------------- transparency

  /**
   Whatever the script does, it stays in its mode and touches, of the banks in use, only its own and
   the unbanked registers.
   */
  ghost predicate Confined(s: Core, t: Core, busy: set<nat>)
    requires Sound(s) && Sound(t)
  {
    && t.mode == s.mode && t.bank == s.bank
    && forall i :: 0 <= i < REGISTERS && t.raw[i] != s.raw[i] ==> Seen(s.bank, i) || !Guarded(i, busy)
  }

  lemma {:induction false} ScriptConfined(s: Core, script: Script, busy: set<nat>)
    requires Valid(s) && Behaved(s, script, busy) && s.bank in busy
    ensures Valid(Run(s, script)) && Confined(s, Run(s, script), busy)
    decreases script, 0
  {
    match script
    case Done =>
    case Compute(to, rest) =>
      ScriptConfined(to, rest, busy);
    case Serve(m, target, inner, rest) =>
      ServeTransparent(s, m, target, inner, busy);
      var t := Return(Run(Trap(s, m, target), inner));
      ScriptConfined(t, rest, busy);
  }

  /**
   An exception is transparent: after entry, a well-behaved handler and return,
   the PC, the status, the mode and every register of the banks in use are what
   they were.
   */
  lemma {:induction false} ServeTransparent(s: Core, m: Mode, target: Word, inner: Script, busy: set<nat>)
    requires Valid(s) && s.bank in busy && Behaved(s, Serve(m, target, inner, Done), busy)
    ensures var t := Return(Run(Trap(s, m, target), inner)); Valid(t) && Agrees(s, t, busy)
    decreases inner, 1
  {
    var a := Trap(s, m, target);
    TrapEffect(s, m, target);
    ScriptConfined(a, inner, busy + {BankOf(m)});
    var e := Run(a, inner);
    SavedKept(a, e);
    hide Trap, Run, Status;
    ReturnEffect(e, s.mode);
    StatusBits(s.raw[CPSR], s.mode);
    var t := Return(e);
    hide Return, Seen;
    forall i | 0 <= i < REGISTERS && Guarded(i, busy) ensures t.raw[i] == s.raw[i] {
      if i != PC && i != CPSR { GuardedKept(s, a, e, m, busy, i); }
    }
  }

  lemma SavedKept(a: Core, e: Core)
    requires |a.raw| == REGISTERS && |e.raw| == REGISTERS && a.bank < 6 && Preserves(a, e)
    ensures Get(e, LR) == Get(a, LR) && Get(e, SPSR) == Get(a, SPSR)
  {
  }

  lemma GuardedKept(s: Core, a: Core, e: Core, m: Mode, busy: set<nat>, i: nat)
    requires Valid(s) && Valid(a) && Valid(e) && a.mode == m && i < REGISTERS && Guarded(i, busy) && i != PC
    requires i != CPSR
    requires s.bank in busy && BankOf(m) !in busy && Handles(m)
    requires Confined(a, e, busy + {BankOf(m)}) && Preserves(a, e)
    requires forall j :: 0 <= j < REGISTERS && j != PC && j != CPSR
                         && j != Index(BankOf(m), LR) && j != Index(BankOf(m), SPSR)
               ==> a.raw[j] == s.raw[j]
    ensures e.raw[i] == s.raw[i]
  {
    var b := BankOf(m);
    if Seen(b, i) {
      assert i < SP && Index(b, i) == i;
      assert Get(e, i) == Get(a, i);
    } else {
      assert Guarded(i, busy + {b});
    }
  }

  /**
   The return restores the status exactly, unless IRQ mode was interrupted with
   interrupts unmasked: going back to IRQ mode masks them.
   */
  lemma StatusRestored(s: Core, m: Mode, target: Word, e: Core)
    requires Valid(s) && Handles(m) && |e.raw| == REGISTERS && Preserves(Trap(s, m, target), e)
    ensures Return(e).mode == s.mode && Get(Return(e), PC) == Get(s, PC)
    ensures Get(Return(e), CPSR) == Get(s, CPSR) <==> (s.mode == Irq ==> Masked(Get(s, CPSR)))
    ensures s.mode == Irq && !Masked(Get(s, CPSR)) ==> Get(Return(e), CPSR) == Get(s, CPSR) + 128
  {
    var a := Trap(s, m, target);
    TrapEffect(s, m, target);
    SavedKept(a, e);
    hide Trap, Status;
    ReturnEffect(e, s.mode);
    StatusBits(Get(s, CPSR), s.mode);
  }

  // ---------------------------------------------------------------- the interrupt line

  /** The core between instructions, or in the middle of one that needs several cycles. */
  datatype RunState = Running | MidSingle | MidHalfword | MidMultiple | MidMultiple2 | Other

  /** The interrupt line is obeyed between instructions only, with interrupts unmasked, outside IRQ and FIQ mode. */
  predicate Obeys(s: Core, runState: RunState)
    requires |s.raw| == REGISTERS
  {
    s.mode != Irq && s.mode != Fiq && !Masked(s.raw[CPSR]) && runState == Running
  }

  /** An interrupt obeyed and handled leaves no trace in what the interrupted mode can see. */
  lemma InterruptTransparent(s: Core, runState: RunState, target: Word, inner: Script)
    requires Valid(s) && Obeys(s, runState)
    requires var a := Trap(s, Irq, target);
             Behaved(a, inner, {s.bank, BankOf(Irq)}) && Preserves(a, Run(a, inner))
    ensures var t := Return(Run(Trap(s, Irq, target), inner));
            && t.mode == s.mode && Get(t, PC) == Get(s, PC) && Get(t, CPSR) == Get(s, CPSR)
            && forall r :: 0 <= r < BANK_SIZE && (s.bank != 0 || r != SPSR) ==> Get(t, r) == Get(s, r)
  {
    var busy := {s.bank};
    assert busy + {BankOf(Irq)} == {s.bank, BankOf(Irq)};
    var script := Serve(Irq, target, inner, Done);
    assert Behaved(s, script, busy) by { hide Run; }
    ServeTransparent(s, Irq, target, inner, busy);
    hide Run, Trap, Return;
    forall r | 0 <= r < BANK_SIZE ensures Guarded(Index(s.bank, r), busy) { Banking(s.bank, r, s.bank, r); }
  }

  // ---------------------------------------------------------------- the core in place

  class Cpu {
    const rawReg: array<Word>
    var currentMode: Mode
    var currentBank: nat
    var runState: RunState
    var interruptWait: nat

    ghost function Value(): Core
      reads this, rawReg
    {
      Core(rawReg[..], currentMode, currentBank)
    }

    ghost predicate Ready()
      reads this
    {
      rawReg.Length == REGISTERS && currentBank < 6
    }

    constructor ()
      ensures fresh(rawReg) && Ready() && Valid(Value()) && runState == Running
    {
      rawReg := new Word[REGISTERS](i => if i == CPSR then Code(Supervisor) else 0);
      currentMode, currentBank, runState, interruptWait := Supervisor, BankOf(Supervisor), Running, 0;
    }

    method WriteReg(r: nat, v: Word)
      requires Ready() && r < BANK_SIZE && !(currentBank == 0 && r == SPSR)
      modifies rawReg
      ensures Value() == Put(old(Value()), r, v)
    {
      rawReg[Index(currentBank, r)] := v;
    }

    method SwitchMode(m: Mode)
      requires Ready()
      modifies this, rawReg
      ensures Ready() && Value() == SetMode(old(Value()), m)
      ensures runState == old(runState) && interruptWait == old(interruptWait)
    {
      currentMode := m;
      currentBank := BankOf(m);
      var cpsr := rawReg[CPSR] - rawReg[CPSR] % 32;
      cpsr := cpsr + Code(m);
      if m == Irq && !Masked(cpsr) {
        cpsr := cpsr + 128;
      }
      assert cpsr == Status(rawReg[CPSR], m);
      hide Status, Masked, Code, BankOf;
      rawReg[CPSR] := cpsr;
    }

    method DecodeTrap(m: Mode, target: Word)
      requires Ready() && Handles(m)
      modifies this, rawReg
      ensures Ready() && Value() == Trap(old(Value()), m, target)
      ensures runState == old(runState) && interruptWait == old(interruptWait)
    {
      var prevCpsr := rawReg[Index(currentBank, CPSR)];
      var prevPc := rawReg[Index(currentBank, PC)];
      SwitchMode(m);
      WriteReg(LR, prevPc);
      WriteReg(SPSR, prevCpsr);
      WriteReg(PC, target);
    }

    method DecodeSetModeFromCpsr()
      requires Ready()
      modifies this, rawReg
      ensures Ready() && Value() == SetModeFromCpsr(old(Value())) && runState == old(runState)
    {
      var m := Decode(rawReg[CPSR] % 32);
      if m.Some? {
        SwitchMode(m.value);
      }
    }

    /** SUBS pc, lr, #4. */
    method ReturnFromTrap()
      requires Ready() && currentBank > 0
      modifies this, rawReg
      ensures Ready() && Value() == Return(old(Value())) && runState == old(runState)
    {
      var result := (rawReg[Index(currentBank, LR)] - 4) % TOP;
      WriteReg(PC, (result + 4) % TOP);
      var newv := rawReg[Index(currentBank, SPSR)];
      WriteReg(CPSR, newv);
      DecodeSetModeFromCpsr();
    }

    method HwInterrupt(target: Word) returns (taken: bool)
      requires Ready()
      modifies this, rawReg
      ensures Ready() && taken == old(Obeys(Value(), runState))
      ensures old(runState) != Running || old(currentMode) == Irq || old(currentMode) == Fiq ==> !taken
      ensures old(Masked(rawReg[CPSR])) ==> !taken
      ensures taken ==> interruptWait == 0
      ensures interruptWait > old(interruptWait) <==>
              old(runState) != Running && old(currentMode) != Irq && old(currentMode) != Fiq && !old(Masked(rawReg[CPSR]))
      ensures taken ==> Value() == Trap(old(Value()), Irq, target) && runState == Running
      ensures !taken ==> Value() == old(Value()) && runState == old(runState)
    {
      if currentMode != Irq && !Masked(rawReg[CPSR]) && currentMode != Fiq {
        if runState != Running {
          interruptWait := interruptWait + 1;
          return false;
        }
        if interruptWait > 0 {
          interruptWait := 0;
        }
        DecodeTrap(Irq, target);
        return true;
      }
      return false;
    }
  }
}
