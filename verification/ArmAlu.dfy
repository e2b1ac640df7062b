/**
 Flag-setting arithmetic of the ARM core and the conditions that read the flags:
 carries and overflow as the core computes them, with comparisons of operands
 and signs, against exact arithmetic on numbers of any length.
 */
module ArmAlu {
  import opened Words
  import opened Wrappers

  const HALF := 0x8000_0000

  datatype Flags = Flags(n: bool, z: bool, c: bool, v: bool)

  datatype Op = Sub | Rsb | Add | Adc | Sbc | Rsc | Cmp | Cmn

  predicate Neg(x: Word) { x >= HALF }

  // ---------------------------------------------------------------- one instruction

  function Difference(a: Word, b: Word, borrow: nat): Word { (a - b - borrow) % TOP }

  predicate SubOverflow(a: Word, b: Word, r: Word)
  {
    (Neg(a) && !Neg(b) && !Neg(r)) || (!Neg(a) && Neg(b) && Neg(r))
  }

  predicate AddOverflow(a: Word, b: Word, r: Word)
  {
    (Neg(a) && Neg(b) && !Neg(r)) || (!Neg(a) && !Neg(b) && Neg(r))
  }

  function Result(op: Op, a: Word, b: Word, c: bool): Word
  {
    match op
    case Sub => Difference(a, b, 0)
    case Cmp => Difference(a, b, 0)
    case Rsb => Difference(b, a, 0)
    case Sbc => Difference(a, b, 1 - One(c))
    case Rsc => Difference(b, a, 1 - One(c))
    case Add => (a + b) % TOP
    case Cmn => (a + b) % TOP
    case Adc => (a + b + One(c)) % TOP
  }

  function Carry(op: Op, a: Word, b: Word, r: Word, c: bool): bool
  {
    match op
    case Sub => a >= b
    case Cmp => a >= b
    case Rsb => b >= a
    case Sbc => if c then a >= b else a > b
    case Rsc => if c then b >= a else b > a
    case Add => r < a
    case Cmn => r < a
    case Adc => if c then r <= a else r < a
  }

  predicate Overflow(op: Op, a: Word, b: Word, r: Word)
  {
    match op
    case Sub => SubOverflow(a, b, r)
    case Cmp => SubOverflow(a, b, r)
    case Sbc => SubOverflow(a, b, r)
    case Rsb => SubOverflow(b, a, r)
    case Rsc => SubOverflow(b, a, r)
    case _ => AddOverflow(a, b, r)
  }

  /** The flags after an arithmetic instruction with the S bit; c is the carry flag before it. */
  function After(op: Op, a: Word, b: Word, c: bool): Flags
  {
    var r := Result(op, a, b, c);
    Flags(Neg(r), r == 0, Carry(op, a, b, r, c), Overflow(op, a, b, r))
  }

  /** The value of a word read as a signed number. */
  function Signed(x: Word): int { if Neg(x) then x - TOP else x }

  predicate Fits(x: int) { -HALF <= x < HALF }

  /** Additions: the carry completes the unsigned sum, and overflow says that the signed sum does not fit. */
  lemma AddExact(op: Op, a: Word, b: Word, c: bool)
    requires op == Add || op == Adc || op == Cmn
    ensures var r, f := Result(op, a, b, c), After(op, a, b, c);
            var carryIn := if op == Adc then One(c) else 0;
            && r + One(f.c) * TOP == a + b + carryIn
            && (f.v <==> !Fits(Signed(a) + Signed(b) + carryIn))
            && (!f.v ==> Signed(r) == Signed(a) + Signed(b) + carryIn)
  {
  }

  /**
   Subtractions: carry clear is a borrow, overflow says that the signed difference does not fit, and N
   xor V is its sign.
   */
  lemma SubExact(op: Op, a: Word, b: Word, c: bool)
    requires op == Sub || op == Sbc || op == Cmp
    ensures var r, f := Result(op, a, b, c), After(op, a, b, c);
            var borrow := if op == Sbc then 1 - One(c) else 0;
            && r == a - b - borrow + (1 - One(f.c)) * TOP
            && (f.v <==> !Fits(Signed(a) - Signed(b) - borrow))
            && (f.n == f.v <==> Signed(a) - Signed(b) - borrow >= 0)
  {
  }

  /** Reverse subtraction is subtraction with the operands exchanged. */
  lemma ReverseExact(a: Word, b: Word, c: bool)
    ensures Result(Rsb, a, b, c) == Result(Sub, b, a, c) && After(Rsb, a, b, c) == After(Sub, b, a, c)
    ensures Result(Rsc, a, b, c) == Result(Sbc, b, a, c) && After(Rsc, a, b, c) == After(Sbc, b, a, c)
  {
  }

  // ---------------------------------------------------------------- conditions

  /** The condition field; 15 is no condition and ends in a failed assertion. */
  function Passes(cond: nat, f: Flags): Option<bool>
  {
    match cond
    case 0 => Some(f.z)
    case 1 => Some(!f.z)
    case 2 => Some(f.c)
    case 3 => Some(!f.c)
    case 4 => Some(f.n)
    case 5 => Some(!f.n)
    case 6 => Some(f.v)
    case 7 => Some(!f.v)
    case 8 => Some(f.c && !f.z)
    case 9 => Some(!f.c || f.z)
    case 10 => Some(f.n == f.v)
    case 11 => Some(f.n != f.v)
    case 12 => Some(!f.z && f.n == f.v)
    case 13 => Some(f.z || f.n != f.v)
    case 14 => Some(true)
    case _ => None
  }

  /** After a comparison of two words every condition decides the order it is named for. */
  lemma Compare(a: Word, b: Word, c: bool)
    ensures var f := After(Cmp, a, b, c);
            && Passes(0, f) == Some(a == b) && Passes(1, f) == Some(a != b)
            && Passes(2, f) == Some(a >= b) && Passes(3, f) == Some(a < b)
            && Passes(8, f) == Some(a > b) && Passes(9, f) == Some(a <= b)
            && Passes(10, f) == Some(Signed(a) >= Signed(b)) && Passes(11, f) == Some(Signed(a) < Signed(b))
            && Passes(12, f) == Some(Signed(a) > Signed(b)) && Passes(13, f) == Some(Signed(a) <= Signed(b))
  {
    SubExact(Cmp, a, b, c);
  }

  /** The signed result of an instruction before it is cut to a word. */
  function Exact(op: Op, a: Word, b: Word, c: bool): int
  {
    match op
    case Add => Signed(a) + Signed(b)
    case Cmn => Signed(a) + Signed(b)
    case Adc => Signed(a) + Signed(b) + One(c)
    case Sub => Signed(a) - Signed(b)
    case Cmp => Signed(a) - Signed(b)
    case Sbc => Signed(a) - Signed(b) - (1 - One(c))
    case Rsb => Signed(b) - Signed(a)
    case Rsc => Signed(b) - Signed(a) - (1 - One(c))
  }

  /** After any arithmetic instruction MI and PL decide the sign of the result, VS and VC whether the exact one fits. */
  lemma SignAndOverflow(op: Op, a: Word, b: Word, c: bool)
    ensures var r, f := Result(op, a, b, c), After(op, a, b, c);
            && Passes(4, f) == Some(Signed(r) < 0) && Passes(5, f) == Some(Signed(r) >= 0)
            && Passes(6, f) == Some(!Fits(Exact(op, a, b, c))) && Passes(7, f) == Some(Fits(Exact(op, a, b, c)))
            && (Fits(Exact(op, a, b, c)) ==> Signed(r) == Exact(op, a, b, c))
  {
    match op
    case Add => AddExact(op, a, b, c);
    case Adc => AddExact(op, a, b, c);
    case Cmn => AddExact(op, a, b, c);
    case Sub => SubSigned(op, a, b, c);
    case Sbc => SubSigned(op, a, b, c);
    case Cmp => SubSigned(op, a, b, c);
    case Rsb => ReverseExact(a, b, c); SubSigned(Sub, b, a, c);
    case Rsc => ReverseExact(a, b, c); SubSigned(Sbc, b, a, c);
  }

  lemma SubSigned(op: Op, a: Word, b: Word, c: bool)
    requires op == Sub || op == Sbc || op == Cmp
    ensures After(op, a, b, c).v <==> !Fits(Exact(op, a, b, c))
    ensures Fits(Exact(op, a, b, c)) ==> Signed(Result(op, a, b, c)) == Exact(op, a, b, c)
  {
    SubExact(op, a, b, c);
  }

  /** The fourteen conditions come in opposite pairs, 14 always passes, and 15 is no condition. */
  lemma ConditionPairs(f: Flags, k: nat)
    ensures k < 7 ==> Passes(2 * k, f).Some? && Passes(2 * k + 1, f) == Some(!Passes(2 * k, f).value)
    ensures Passes(14, f) == Some(true) && (k >= 15 ==> Passes(k, f) == None)
  {
    if k < 7 {
      assert k == 0 || k == 1 || k == 2 || k == 3 || k == 4 || k == 5 || k == 6;
    }
  }

  // ---------------------------------------------------------------- numbers of several words

  /** 2^(32 n). */
  function Weight(n: nat): (w: nat)
    ensures w > 0
  {
    if n == 0 then 1 else TOP * Weight(n - 1)
  }

  /** The unsigned value of a number, least significant word first. */
  function Value(limbs: seq<Word>): nat
  {
    if limbs == [] then 0 else Value(limbs[..|limbs| - 1]) + limbs[|limbs| - 1] * Weight(|limbs| - 1)
  }

  /** The two's complement value. */
  function SignedValue(limbs: seq<Word>): int
    requires limbs != []
  {
    Value(limbs) - (if Neg(limbs[|limbs| - 1]) then Weight(|limbs|) else 0)
  }

  datatype Outcome = Outcome(limbs: seq<Word>, flags: Flags)

  /** The plain instruction on the first words, the one with carry on all others. */
  function Chain(first: Op, next: Op, a: seq<Word>, b: seq<Word>): (o: Outcome)
    requires |a| == |b| > 0
    ensures |o.limbs| == |a|
    decreases |a|
  {
    var n := |a| - 1;
    if n == 0 then Outcome([Result(first, a[0], b[0], false)], After(first, a[0], b[0], false))
    else
      var low := Chain(first, next, a[..n], b[..n]);
      Outcome(low.limbs + [Result(next, a[n], b[n], low.flags.c)], After(next, a[n], b[n], low.flags.c))
  }

  lemma {:induction false} ValueBound(limbs: seq<Word>)
    ensures Value(limbs) < Weight(|limbs|)
  {
    if limbs != [] {
      var n := |limbs| - 1;
      ValueBound(limbs[..n]);
      Product(limbs[n], TOP - 1, Weight(n));
      assert (TOP - 1) * Weight(n) == Weight(n + 1) - Weight(n);
    }
  }

  lemma Product(x: int, y: int, w: nat)
    requires x <= y
    ensures x * w <= y * w
  {
  }

  lemma Appended(limbs: seq<Word>, x: Word)
    ensures Value(limbs + [x]) == Value(limbs) + x * Weight(|limbs|)
  {
    assert (limbs + [x])[..|limbs|] == limbs;
  }

  lemma ValueLast(limbs: seq<Word>)
    requires limbs != []
    ensures var n := |limbs| - 1;
            Value(limbs) == Value(limbs[..n]) + limbs[n] * Weight(n) && Weight(|limbs|) == TOP * Weight(n)
  {
  }

  /** The last word of a chain comes from the instruction with carry, fed with the carry of the words before. */
  lemma ChainLast(first: Op, next: Op, a: seq<Word>, b: seq<Word>)
    requires |a| == |b| > 1
    ensures var n, o := |a| - 1, Chain(first, next, a, b);
            var low := Chain(first, next, a[..n], b[..n]);
            && o.limbs == low.limbs + [Result(next, a[n], b[n], low.flags.c)]
            && o.flags == After(next, a[n], b[n], low.flags.c)
  {
  }

  lemma ChainOne(first: Op, next: Op, a: seq<Word>, b: seq<Word>)
    requires |a| == |b| == 1
    ensures Chain(first, next, a, b) == Outcome([Result(first, a[0], b[0], false)], After(first, a[0], b[0], false))
  {
  }

  /** ADDS then ADCS: the exact sum, with C as the final carry. */
  lemma {:induction false} AddChain(a: seq<Word>, b: seq<Word>)
    requires |a| == |b| > 0
    ensures var o := Chain(Add, Adc, a, b); Value(o.limbs) + One(o.flags.c) * Weight(|a|) == Value(a) + Value(b)
    decreases |a|
  {
    hide Result, After, Value, Chain, Weight;
    var n := |a| - 1;
    if n == 0 {
      ChainOne(Add, Adc, a, b);
      AddExact(Add, a[0], b[0], false);
      Single(a);
      Single(b);
      Single(Chain(Add, Adc, a, b).limbs);
    } else {
      ChainLast(Add, Adc, a, b);
      ValueLast(a);
      ValueLast(b);
      AddChain(a[..n], b[..n]);
      var low := Chain(Add, Adc, a[..n], b[..n]);
      var r, f := Result(Adc, a[n], b[n], low.flags.c), After(Adc, a[n], b[n], low.flags.c);
      AddExact(Adc, a[n], b[n], low.flags.c);
      Appended(low.limbs, r);
      AddTop(Value(low.limbs), One(low.flags.c), Value(a[..n]), Value(b[..n]), a[n], b[n], r, One(f.c), Weight(n));
    }
  }

  lemma Single(limbs: seq<Word>)
    requires |limbs| == 1
    ensures Value(limbs) == limbs[0] && Weight(1) == TOP
  {
    assert Value(limbs[..0]) == 0 && Weight(0) == 1;
  }

  lemma AddTop(low: int, c: int, va: int, vb: int, x: int, y: int, r: int, c': int, w: int)
    requires low + c * w == va + vb && r + c' * TOP == x + y + c
    ensures (low + r * w) + c' * (TOP * w) == (va + x * w) + (vb + y * w)
  {
    assert (r + c' * TOP) * w == (x + y + c) * w;
    assert (r + c' * TOP) * w == r * w + c' * (TOP * w);
    assert (x + y + c) * w == x * w + y * w + c * w;
  }

  /** SUBS then SBCS: the exact difference, with carry clear as the final borrow. */
  lemma {:induction false} SubChain(a: seq<Word>, b: seq<Word>)
    requires |a| == |b| > 0
    ensures var o := Chain(Sub, Sbc, a, b); Value(o.limbs) == Value(a) - Value(b) + (1 - One(o.flags.c)) * Weight(|a|)
    decreases |a|
  {
    hide Result, After, Value, Chain, Weight;
    var n := |a| - 1;
    if n == 0 {
      ChainOne(Sub, Sbc, a, b);
      SubExact(Sub, a[0], b[0], false);
      Single(a);
      Single(b);
      Single(Chain(Sub, Sbc, a, b).limbs);
    } else {
      ChainLast(Sub, Sbc, a, b);
      ValueLast(a);
      ValueLast(b);
      SubChain(a[..n], b[..n]);
      var low := Chain(Sub, Sbc, a[..n], b[..n]);
      var r, f := Result(Sbc, a[n], b[n], low.flags.c), After(Sbc, a[n], b[n], low.flags.c);
      SubExact(Sbc, a[n], b[n], low.flags.c);
      Appended(low.limbs, r);
      SubTop(Value(low.limbs), 1 - One(low.flags.c), Value(a[..n]), Value(b[..n]), a[n], b[n], r, 1 - One(f.c), Weight(n));
    }
  }

  lemma SubTop(low: int, k: int, va: int, vb: int, x: int, y: int, r: int, k': int, w: int)
    requires low == va - vb + k * w && r == x - y - k + k' * TOP
    ensures low + r * w == (va + x * w) - (vb + y * w) + k' * (TOP * w)
  {
    assert r * w == (x - y - k + k' * TOP) * w;
    assert (x - y - k + k' * TOP) * w == x * w - y * w - k * w + k' * (TOP * w);
  }

  /** The carry after a subtraction decides the unsigned order of the whole numbers. */
  lemma SubCarryDecides(a: seq<Word>, b: seq<Word>)
    requires |a| == |b| > 0
    ensures Passes(2, Chain(Sub, Sbc, a, b).flags) == Some(Value(a) >= Value(b))
    ensures Passes(3, Chain(Sub, Sbc, a, b).flags) == Some(Value(a) < Value(b))
  {
    SubChain(a, b);
    ValueBound(Chain(Sub, Sbc, a, b).limbs);
    ValueBound(a);
    ValueBound(b);
  }

  /** N and V after a subtraction decide the signed order of the whole numbers. */
  lemma SubSignDecides(a: seq<Word>, b: seq<Word>)
    requires |a| == |b| > 0
    ensures Passes(10, Chain(Sub, Sbc, a, b).flags) == Some(SignedValue(a) >= SignedValue(b))
    ensures Passes(11, Chain(Sub, Sbc, a, b).flags) == Some(SignedValue(a) < SignedValue(b))
  {
    hide Result, After, SignedValue, Signed, Chain;
    var n := |a| - 1;
    TopSigned(a);
    TopSigned(b);
    if n == 0 {
      ChainOne(Sub, Sbc, a, b);
      SubExact(Sub, a[0], b[0], false);
      assert Weight(0) == 1 && Value(a[..0]) == 0 && Value(b[..0]) == 0;
    } else {
      ChainLast(Sub, Sbc, a, b);
      var low := Chain(Sub, Sbc, a[..n], b[..n]);
      SubCarryDecides(a[..n], b[..n]);
      SubExact(Sbc, a[n], b[n], low.flags.c);
      ValueBound(a[..n]);
      ValueBound(b[..n]);
      SignOf(Signed(a[n]), Signed(b[n]), Value(a[..n]), Value(b[..n]), Weight(n));
    }
  }

  lemma TopSigned(limbs: seq<Word>)
    requires limbs != []
    ensures SignedValue(limbs) == Value(limbs[..|limbs| - 1]) + Signed(limbs[|limbs| - 1]) * Weight(|limbs| - 1)
  {
    var n, x := |limbs| - 1, limbs[|limbs| - 1];
    assert (x - TOP) * Weight(n) == x * Weight(n) - Weight(n + 1);
  }

  lemma SignOf(x: int, y: int, va: int, vb: int, w: int)
    requires 0 <= va < w && 0 <= vb < w
    ensures va + x * w >= vb + y * w <==> x - y - (if va >= vb then 0 else 1) >= 0
  {
    var d := x - y;
    assert x * w - y * w == d * w;
    if d >= 1 { Product(1, d, w); }
    if d <= -1 { Product(d, -1, w); }
  }

  // ---------------------------------------------------------------- the unit in place

  /** The arithmetic part of the execution step: operands in, result and flags updated. */
  class Unit {
    var flags: Flags
    var result: Word

    constructor (flags: Flags)
      ensures this.flags == flags
    {
      this.flags, result := flags, 0;
    }

    method Execute(op: Op, a: Word, b: Word)
      modifies this
      ensures result == Result(op, a, b, old(flags.c)) && flags == After(op, a, b, old(flags.c))
    {
      var carry, overflow := false, false;
      var cFlag := if flags.c then 1 else 0;
      match op {
        case Sub =>
          result := (a - b) % TOP;
          if a >= b { carry := true; }
          overflow := (Neg(a) && !Neg(b) && !Neg(result)) || (!Neg(a) && Neg(b) && Neg(result));
        case Cmp =>
          result := (a - b) % TOP;
          if a >= b { carry := true; }
          overflow := (Neg(a) && !Neg(b) && !Neg(result)) || (!Neg(a) && Neg(b) && Neg(result));
        case Rsb =>
          result := (b - a) % TOP;
          if b >= a { carry := true; }
          overflow := (Neg(b) && !Neg(a) && !Neg(result)) || (!Neg(b) && Neg(a) && Neg(result));
        case Add =>
          result := (a + b) % TOP;
          if result < a { carry := true; }
          overflow := (Neg(a) && Neg(b) && !Neg(result)) || (!Neg(a) && !Neg(b) && Neg(result));
        case Cmn =>
          result := (a + b) % TOP;
          if result < a { carry := true; }
          overflow := (Neg(a) && Neg(b) && !Neg(result)) || (!Neg(a) && !Neg(b) && Neg(result));
        case Adc =>
          result := (a + b + cFlag) % TOP;
          carry := if flags.c then result <= a else result < a;
          overflow := (Neg(a) && Neg(b) && !Neg(result)) || (!Neg(a) && !Neg(b) && Neg(result));
        case Sbc =>
          result := (a - b + cFlag - 1) % TOP;
          carry := if flags.c then a >= b else a > b;
          overflow := (Neg(a) && !Neg(b) && !Neg(result)) || (!Neg(a) && Neg(b) && Neg(result));
        case Rsc =>
          result := (b - a + cFlag - 1) % TOP;
          carry := if flags.c then b >= a else b > a;
          overflow := (Neg(b) && !Neg(a) && !Neg(result)) || (!Neg(b) && Neg(a) && Neg(result));
      }
      assert result == Result(op, a, b, flags.c) by { hide Carry, Overflow, Neg; }
      assert carry == Carry(op, a, b, result, flags.c) by { hide Result, Overflow, Neg; }
      assert overflow == Overflow(op, a, b, result) by { hide Result, Carry, Neg; }
      hide Result, Carry, Overflow, Neg;
      flags := Flags(Neg(result), result == 0, carry, overflow);
    }
  }
}
