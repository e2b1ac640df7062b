/**
 The multi-level page table of the 64-bit virtual memory unit, built lazily:
 tables and entries appear on first use.  Tables and entries live in two growing
 arrays, and a pointer is an index into one of them.
 */
module RadixTable {
  import opened Arithmetic
  import opened Wrappers

  function Pow2(k: nat): (r: nat)
    ensures r > 0
  {
    if k == 0 then 1 else 2 * Pow2(k - 1)
  }

  // ---------------------------------------------------------------- levels

  datatype Level = Level(logSize: nat, size: nat, leaf: bool)

  /** Bits of the frame number resolved from level i on. */
  function Bits(ls: seq<Level>, i: nat): nat
    requires i <= |ls|
    decreases |ls| - i
  {
    if i == |ls| then 0 else ls[i].logSize + Bits(ls, i + 1)
  }

  /** Sizes match, and the last level is the only leaf. */
  ghost predicate LevelsOk(ls: seq<Level>, vfnBits: nat)
  {
    && |ls| > 0 && Bits(ls, 0) == vfnBits
    && forall i :: 0 <= i < |ls| ==> ls[i].size == Pow2(ls[i].logSize) && (ls[i].leaf <==> i == |ls| - 1)
  }

  lemma {:induction false} BitsOfInner(ls: seq<Level>, last: Level, i: nat, b: nat)
    requires i <= |ls| && forall j :: i <= j < |ls| ==> ls[j].logSize == b
    ensures Bits(ls + [last], i) == (|ls| - i) * b + last.logSize
    decreases |ls| - i
  {
    if i == |ls| {
      assert Bits(ls + [last], i + 1) == 0;
    } else {
      BitsOfInner(ls, last, i + 1, b);
      assert (|ls| - i) * b == (|ls| - (i + 1)) * b + b;
    }
  }

  /**
   The constructor's split of the frame number into levels, in an array of
   `nlevels`; `ok` is false where it would write past the end.  The quotient is
   rounded down, so the split fits exactly when nlevels divides the bit count.
   */
  method SplitLevels(vfnBits: nat, nlevels: nat) returns (ok: bool, ls: seq<Level>)
    requires nlevels > 0
    ensures ok <==> vfnBits % nlevels == 0
    ensures ok ==> LevelsOk(ls, vfnBits) && |ls| <= nlevels
    ensures ok && vfnBits > 0 ==> |ls| == nlevels && forall i :: 0 <= i < |ls| ==> ls[i].logSize == vfnBits / nlevels
  {
    var bits, perLevel := 0, vfnBits / nlevels;
    ls := [];
    while bits + perLevel < vfnBits
      invariant |ls| <= nlevels && bits == |ls| * perLevel
      invariant |ls| > 0 ==> |ls| * perLevel < vfnBits
      invariant forall i :: 0 <= i < |ls| ==> ls[i] == Level(perLevel, Pow2(perLevel), false)
      decreases nlevels - |ls|
    {
      if |ls| == nlevels {
        return false, ls;
      }
      ls := ls + [Level(perLevel, Pow2(perLevel), false)];
      bits := bits + perLevel;
    }
    ghost var inner := ls;
    if |ls| == nlevels {
      return false, ls;
    }
    var last := Level(vfnBits - bits, Pow2(vfnBits - bits), true);
    FitsExactly(vfnBits, nlevels, |ls|);
    BitsOfInner(inner, last, 0, perLevel);
    ls := ls + [last];
    ok := true;
  }

  /** Fewer than n inner levels suffice only if n divides the bit count. */
  lemma FitsExactly(v: nat, n: nat, level: nat)
    requires n > 0 && level < n && level * (v / n) + v / n >= v && (level > 0 ==> level * (v / n) < v)
    ensures v % n == 0 && (v > 0 ==> level == n - 1 && v - level * (v / n) == v / n)
  {
    var b := v / n;
    assert v == n * b + v % n;
    assert (level + 1) * b <= n * b by { Monotone(level + 1, n, b); }
    assert (level + 1) * b == level * b + b;
    if v > 0 && level < n - 1 {
      Monotone(level + 2, n, b);
    }
  }

  // ---------------------------------------------------------------- tables

  /** A page table entry; frame and node are -1 until a physical page is loaded. */
  datatype Pte = Pte(vfn: nat, pfn: int, node: int, valid: bool, modified: bool)

  /** A slot of a leaf table points to an entry, any other slot to a table one level down. */
  datatype Table = Table(level: nat, slots: seq<Option<nat>>)

  datatype Memory = Memory(tables: seq<Table>, ptes: seq<Pte>)

  function NewTable(ls: seq<Level>, level: nat): Table
    requires level < |ls|
  {
    Table(level, seq(ls[level].size, _ => None))
  }

  function NewPte(vfn: nat): Pte { Pte(vfn, -1, -1, false, false) }

  function WithSlot(m: Memory, t: nat, i: nat, target: nat): Memory
    requires t < |m.tables| && i < |m.tables[t].slots|
  {
    m.(tables := m.tables[t := Table(m.tables[t].level, m.tables[t].slots[i := Some(target)])])
  }

  function Child(m: Memory, t: nat, i: nat): Option<nat>
  {
    if t < |m.tables| && i < |m.tables[t].slots| then m.tables[t].slots[i] else None
  }

  predicate SlotOk(ls: seq<Level>, m: Memory, t: nat, c: nat)
    requires t < |m.tables| && m.tables[t].level < |ls|
  {
    if m.tables[t].level == |ls| - 1 then c < |m.ptes|
    else c < |m.tables| && m.tables[c].level == m.tables[t].level + 1
  }

  ghost predicate Shape(ls: seq<Level>, m: Memory)
  {
    && (forall t :: 0 <= t < |m.tables| ==>
          m.tables[t].level < |ls| && |m.tables[t].slots| == ls[m.tables[t].level].size)
    && (forall t, i :: 0 <= t < |m.tables| && Child(m, t, i).Some? ==> SlotOk(ls, m, t, Child(m, t, i).value))
  }

  /** bases[t] is the part of the frame number resolved on the way to table t. */
  ghost predicate Based(ls: seq<Level>, m: Memory, bases: seq<nat>)
    requires Shape(ls, m)
  {
    && |bases| == |m.tables|
    && forall t, i :: 0 <= t < |m.tables| && Child(m, t, i).Some? ==>
         var c, path := Child(m, t, i).value, bases[t] * ls[m.tables[t].level].size + i;
         if m.tables[t].level == |ls| - 1 then m.ptes[c].vfn == path else bases[c] == path
  }

  /** The slot of table t on the way to the unresolved part `rest`, and what is left below it. */
  function Index(ls: seq<Level>, level: nat, rest: nat): nat
    requires level < |ls|
  {
    rest / Pow2(Bits(ls, level + 1)) % Pow2(ls[level].logSize)
  }

  function Below(ls: seq<Level>, level: nat, rest: nat): nat
    requires level < |ls|
  {
    rest % Pow2(Bits(ls, level + 1))
  }

  /** The lookup from table t: creates what is missing on the way, and returns the entry. */
  function Walk(ls: seq<Level>, m: Memory, vfn: nat, rest: nat, t: nat): (Memory, nat)
    requires Shape(ls, m) && t < |m.tables|
    requires forall i :: 0 <= i < |ls| ==> ls[i].size == Pow2(ls[i].logSize)
    decreases |ls| - m.tables[t].level
  {
    var level := m.tables[t].level;
    var i := Index(ls, level, rest);
    var c := Child(m, t, i);
    if level == |ls| - 1 then
      if c.Some? then (m, c.value)
      else (WithSlot(m.(ptes := m.ptes + [NewPte(vfn)]), t, i, |m.ptes|), |m.ptes|)
    else if c.Some? then Walk(ls, m, vfn, Below(ls, level, rest), c.value)
    else
      var m' := Grown(ls, m, t, i);
      GrownShape(ls, m, t, i);
      Walk(ls, m', vfn, Below(ls, level, rest), |m.tables|)
  }

  /** A fresh table hung into slot i of table t. */
  function Grown(ls: seq<Level>, m: Memory, t: nat, i: nat): Memory
    requires Shape(ls, m) && t < |m.tables| && m.tables[t].level < |ls| - 1 && i < |m.tables[t].slots|
  {
    WithSlot(m.(tables := m.tables + [NewTable(ls, m.tables[t].level + 1)]), t, i, |m.tables|)
  }

  lemma GrownShape(ls: seq<Level>, m: Memory, t: nat, i: nat)
    requires Shape(ls, m) && t < |m.tables| && m.tables[t].level < |ls| - 1 && i < |m.tables[t].slots|
    ensures Shape(ls, Grown(ls, m, t, i))
    ensures Grown(ls, m, t, i).tables[|m.tables|].level == m.tables[t].level + 1
  {
    var m' := Grown(ls, m, t, i);
    forall u, j | 0 <= u < |m'.tables| && Child(m', u, j).Some?
      ensures SlotOk(ls, m', u, Child(m', u, j).value)
    {
      assert (u == t && j == i) || Child(m', u, j) == Child(m, u, j);
    }
  }

  /** Every pointer of m is in the same place in m'. */
  ghost predicate Keeps(m: Memory, m': Memory)
  {
    && |m.tables| <= |m'.tables| && |m.ptes| <= |m'.ptes|
    && (forall t :: 0 <= t < |m.tables| ==> m'.tables[t].level == m.tables[t].level)
    && (forall t, i :: 0 <= t < |m.tables| && Child(m, t, i).Some? ==> Child(m', t, i) == Child(m, t, i))
  }

  /** m' is m with pointers, tables and blank entries added. */
  ghost predicate Extends(m: Memory, m': Memory)
  {
    && Keeps(m, m')
    && (forall p :: 0 <= p < |m.ptes| ==> m'.ptes[p] == m.ptes[p])
    && (forall p :: |m.ptes| <= p < |m'.ptes| ==> !m'.ptes[p].valid)
  }

  /** The entry already there for the unresolved part `rest`, if any. */
  function Find(ls: seq<Level>, m: Memory, rest: nat, t: nat): Option<nat>
    requires Shape(ls, m) && t < |m.tables|
    decreases |ls| - m.tables[t].level
  {
    var level := m.tables[t].level;
    var c := Child(m, t, Index(ls, level, rest));
    if level == |ls| - 1 || c.None? then c else Find(ls, m, Below(ls, level, rest), c.value)
  }

  // ---------------------------------------------------------------- the lookup as a map

  /** Sizes are powers of two; all that the lookup needs of its levels. */
  ghost predicate Sized(ls: seq<Level>)
  {
    forall i :: 0 <= i < |ls| ==> ls[i].size == Pow2(ls[i].logSize)
  }

  lemma ExtendsChain(m1: Memory, m2: Memory, m3: Memory)
    requires Extends(m1, m2) && Extends(m2, m3)
    ensures Extends(m1, m3)
  {
  }

  lemma LeafGrown(ls: seq<Level>, m: Memory, t: nat, i: nat, vfn: nat)
    requires Shape(ls, m) && t < |m.tables| && i < |m.tables[t].slots| && Child(m, t, i).None?
    requires m.tables[t].level == |ls| - 1
    ensures var m' := WithSlot(m.(ptes := m.ptes + [NewPte(vfn)]), t, i, |m.ptes|);
            Extends(m, m') && Shape(ls, m') && Child(m', t, i) == Some(|m.ptes|)
  {
    var m' := WithSlot(m.(ptes := m.ptes + [NewPte(vfn)]), t, i, |m.ptes|);
    forall u, j | 0 <= u < |m'.tables| && Child(m', u, j).Some?
      ensures SlotOk(ls, m', u, Child(m', u, j).value)
    {
      assert (u == t && j == i) || Child(m', u, j) == Child(m, u, j);
    }
  }

  lemma GrownExtends(ls: seq<Level>, m: Memory, t: nat, i: nat)
    requires Shape(ls, m) && t < |m.tables| && m.tables[t].level < |ls| - 1 && i < |m.tables[t].slots|
    requires Child(m, t, i).None?
    ensures Extends(m, Grown(ls, m, t, i)) && Child(Grown(ls, m, t, i), t, i) == Some(|m.tables|)
  {
  }

  /** A lookup only adds, and leaves its own entry where the next lookup finds it. */
  lemma {:induction false} WalkFinds(ls: seq<Level>, m: Memory, vfn: nat, rest: nat, t: nat)
    requires Shape(ls, m) && Sized(ls) && t < |m.tables|
    ensures var (m', p) := Walk(ls, m, vfn, rest, t);
            && Extends(m, m') && Shape(ls, m') && p < |m'.ptes| && Find(ls, m', rest, t) == Some(p)
            && (Find(ls, m, rest, t).None? ==> p == |m.ptes|)
    decreases |ls| - m.tables[t].level
  {
    var level := m.tables[t].level;
    var i := Index(ls, level, rest);
    var c := Child(m, t, i);
    assert c.Some? ==> SlotOk(ls, m, t, c.value);
    if level == |ls| - 1 {
      if c.None? { LeafGrown(ls, m, t, i, vfn); }
    } else {
      var below := Below(ls, level, rest);
      var m1 := if c.Some? then m else Grown(ls, m, t, i);
      var u := if c.Some? then c.value else |m.tables|;
      if c.None? {
        GrownShape(ls, m, t, i);
        GrownExtends(ls, m, t, i);
      }
      WalkFinds(ls, m1, vfn, below, u);
      var (m', p) := Walk(ls, m1, vfn, below, u);
      ExtendsChain(m, m1, m');
      assert Child(m1, t, i) == Some(u);
      assert Child(m', t, i) == Some(u);
    }
  }

  /** An entry once found is found again in any later state. */
  lemma {:induction false} FindExtends(ls: seq<Level>, m: Memory, m': Memory, rest: nat, t: nat)
    requires Shape(ls, m) && Shape(ls, m') && Keeps(m, m') && t < |m.tables| && Find(ls, m, rest, t).Some?
    ensures Find(ls, m', rest, t) == Find(ls, m, rest, t)
    decreases |ls| - m.tables[t].level
  {
    var level := m.tables[t].level;
    var c := Child(m, t, Index(ls, level, rest));
    assert SlotOk(ls, m, t, c.value);
    if level < |ls| - 1 { FindExtends(ls, m, m', Below(ls, level, rest), c.value); }
  }

  /** Looking up what is there changes nothing. */
  lemma {:induction false} WalkAgain(ls: seq<Level>, m: Memory, vfn: nat, rest: nat, t: nat)
    requires Shape(ls, m) && Sized(ls) && t < |m.tables| && Find(ls, m, rest, t).Some?
    ensures Walk(ls, m, vfn, rest, t) == (m, Find(ls, m, rest, t).value)
    decreases |ls| - m.tables[t].level
  {
    var level := m.tables[t].level;
    var c := Child(m, t, Index(ls, level, rest));
    assert SlotOk(ls, m, t, c.value);
    if level < |ls| - 1 { WalkAgain(ls, m, vfn, Below(ls, level, rest), c.value); }
  }

  lemma {:induction false} Pow2Sum(a: nat, b: nat)
    ensures Pow2(a + b) == Pow2(a) * Pow2(b)
  {
    if a > 0 {
      Pow2Sum(a - 1, b);
      assert Pow2(a) * Pow2(b) == 2 * (Pow2(a - 1) * Pow2(b));
    }
  }

  /** A number splits into the slot index and the rest below it, without loss. */
  lemma Digits(ls: seq<Level>, level: nat, rest: nat)
    requires level < |ls| && rest < Pow2(Bits(ls, level))
    ensures rest == Index(ls, level, rest) * Pow2(Bits(ls, level + 1)) + Below(ls, level, rest)
    ensures Below(ls, level, rest) < Pow2(Bits(ls, level + 1))
  {
    Pow2Sum(ls[level].logSize, Bits(ls, level + 1));
    hide Pow2;
    SplitNumber(rest, Pow2(ls[level].logSize), Pow2(Bits(ls, level + 1)));
  }

  /** Moving slot i from the unresolved to the resolved part keeps the frame number. */
  lemma Descend(ls: seq<Level>, level: nat, base: nat, rest: nat)
    requires level < |ls| && rest < Pow2(Bits(ls, level))
    ensures base * Pow2(Bits(ls, level)) + rest
            == (base * Pow2(ls[level].logSize) + Index(ls, level, rest)) * Pow2(Bits(ls, level + 1)) + Below(ls, level, rest)
    ensures Below(ls, level, rest) < Pow2(Bits(ls, level + 1))
    ensures level == |ls| - 1 ==>
              base * Pow2(Bits(ls, level)) + rest == base * Pow2(ls[level].logSize) + Index(ls, level, rest)
  {
    var hi, lo := Pow2(ls[level].logSize), Pow2(Bits(ls, level + 1));
    Digits(ls, level, rest);
    Pow2Sum(ls[level].logSize, Bits(ls, level + 1));
    assert level == |ls| - 1 ==> lo == 1;
    hide Pow2, Index, Below;
    Regroup(base, hi, Index(ls, level, rest), lo, Below(ls, level, rest));
  }

  lemma Regroup(b: nat, hi: nat, i: nat, lo: nat, r: nat)
    ensures (b * hi + i) * lo + r == b * (hi * lo) + (i * lo + r)
  {
  }

  /** The entry a lookup arrives at carries the frame number that was looked up. */
  lemma {:induction false} FindVfn(ls: seq<Level>, m: Memory, bases: seq<nat>, rest: nat, t: nat)
    requires Shape(ls, m) && Sized(ls) && Based(ls, m, bases) && t < |m.tables|
    requires rest < Pow2(Bits(ls, m.tables[t].level)) && Find(ls, m, rest, t).Some?
    ensures Find(ls, m, rest, t).value < |m.ptes|
    ensures m.ptes[Find(ls, m, rest, t).value].vfn == bases[t] * Pow2(Bits(ls, m.tables[t].level)) + rest
    decreases |ls| - m.tables[t].level
  {
    var level := m.tables[t].level;
    var i := Index(ls, level, rest);
    var c := Child(m, t, i);
    assert SlotOk(ls, m, t, c.value);
    Descend(ls, level, bases[t], rest);
    hide Pow2, Index, Below;
    if level < |ls| - 1 { FindVfn(ls, m, bases, Below(ls, level, rest), c.value); }
  }

  lemma {:induction false} WalkBased(ls: seq<Level>, m: Memory, bases: seq<nat>, vfn: nat, rest: nat, t: nat)
    returns (bases': seq<nat>)
    requires Shape(ls, m) && Sized(ls) && Based(ls, m, bases) && t < |m.tables|
    requires rest < Pow2(Bits(ls, m.tables[t].level))
    requires vfn == bases[t] * Pow2(Bits(ls, m.tables[t].level)) + rest
    ensures Shape(ls, Walk(ls, m, vfn, rest, t).0) && Based(ls, Walk(ls, m, vfn, rest, t).0, bases')
    ensures bases <= bases'
    decreases |ls| - m.tables[t].level
  {
    var level := m.tables[t].level;
    var i := Index(ls, level, rest);
    var c := Child(m, t, i);
    assert c.Some? ==> SlotOk(ls, m, t, c.value);
    Descend(ls, level, bases[t], rest);
    if level == |ls| - 1 {
      bases' := bases;
      if c.None? { LeafBased(ls, m, bases, t, i, vfn); }
    } else if c.Some? {
      bases' := WalkBased(ls, m, bases, vfn, Below(ls, level, rest), c.value);
    } else {
      GrownShape(ls, m, t, i);
      GrownBased(ls, m, bases, t, i);
      hide Pow2, Below, Based, Bits;
      var grown := bases + [bases[t] * ls[level].size + i];
      bases' := WalkBased(ls, Grown(ls, m, t, i), grown, vfn, Below(ls, level, rest), |m.tables|);
    }
  }

  lemma LeafBased(ls: seq<Level>, m: Memory, bases: seq<nat>, t: nat, i: nat, vfn: nat)
    requires Shape(ls, m) && Based(ls, m, bases) && t < |m.tables| && i < |m.tables[t].slots|
    requires m.tables[t].level == |ls| - 1 && Child(m, t, i).None?
    requires vfn == bases[t] * ls[m.tables[t].level].size + i
    ensures var m' := WithSlot(m.(ptes := m.ptes + [NewPte(vfn)]), t, i, |m.ptes|);
            Shape(ls, m') && Based(ls, m', bases)
  {
    LeafGrown(ls, m, t, i, vfn);
    var m' := WithSlot(m.(ptes := m.ptes + [NewPte(vfn)]), t, i, |m.ptes|);
    assert forall u, j :: 0 <= u < |m.tables| ==> (u == t && j == i) || Child(m', u, j) == Child(m, u, j);
    assert forall u, j :: 0 <= u < |m.tables| && Child(m, u, j).Some? ==> SlotOk(ls, m, u, Child(m, u, j).value);
  }

  lemma GrownBased(ls: seq<Level>, m: Memory, bases: seq<nat>, t: nat, i: nat)
    requires Shape(ls, m) && Based(ls, m, bases) && t < |m.tables| && i < |m.tables[t].slots|
    requires m.tables[t].level < |ls| - 1 && Child(m, t, i).None?
    ensures Shape(ls, Grown(ls, m, t, i))
    ensures Based(ls, Grown(ls, m, t, i), bases + [bases[t] * ls[m.tables[t].level].size + i])
  {
    GrownShape(ls, m, t, i);
    var m' := Grown(ls, m, t, i);
    assert forall u, j :: 0 <= u < |m.tables| ==> (u == t && j == i) || Child(m', u, j) == Child(m, u, j);
    assert forall u, j :: 0 <= u < |m.tables| && Child(m, u, j).Some? ==> SlotOk(ls, m, u, Child(m, u, j).value);
  }
}
