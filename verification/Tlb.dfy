/**
 The unified TLB of the ARM memory management unit, against the two-level walk
 of the short-descriptor translation tables (section B3.5 of ARM DDI 0406C).
 Machine words are integers below 2^32; shifts and masks by constants are
 divisions and remainders, and an OR of disjoint fields is a sum.
 */
module Tlb {
  import opened Arithmetic
  import opened Words
  import opened Wrappers

  const PAGE := 0x1000
  const SECTION := 0x10_0000

  type Asid = x: int | 0 <= x < 256

  /** The registers and the tables in memory that a translation reads; `memory` gives the word at an address. */
  datatype Config = Config(enabled: bool, ttbcr: Word, ttbr0: Word, ttbr1: Word, domains: Word, memory: Word -> Word)

  datatype Entry = Entry(pfn: Word, vpn: Word, size: Word, bits: nat, asid: Asid, valid: bool, access: nat, domain: nat)

  datatype Mode = Read | Write | Execute

  datatype WalkResult = Mapped(entry: Entry) | SectionFault | PageFault | Unsupported

  /** A fault names the pair of registers it is reported in; a failed run-time assertion ends the program. */
  datatype Outcome = Physical(address: Word) | Fault(instruction: bool, status: Word, address: Word) | Crash

  // ---------------------------------------------------------------- entries

  /** 2^bits, for the three page widths that occur; an entry never filled has width 0. */
  function Scale(bits: nat): nat
  {
    if bits == 12 then PAGE else if bits == 20 then SECTION else 1
  }

  function Start(e: Entry): Word { (e.vpn * Scale(e.bits)) % TOP }

  /** The end of the page is computed in 32 bits, so a page ending at 2^32 covers nothing. */
  predicate Covers(e: Entry, v: Word)
  {
    Start(e) <= v < (Start(e) + e.size) % TOP
  }

  predicate Match(e: Entry, v: Word, asid: Asid)
  {
    e.valid && e.asid == asid && Covers(e, v)
  }

  function Target(e: Entry, v: Word): Word
    requires e.size > 0
  {
    ((e.pfn * Scale(e.bits)) % TOP + v % e.size) % TOP
  }

  predicate EndsAtTop(e: Entry)
  {
    Start(e) + e.size == TOP
  }

  /** Entries are either filled by a walk or as constructed. */
  predicate WellMade(e: Entry)
  {
    || (e.bits == 12 && e.size == PAGE && e.vpn < TOP / PAGE)
    || (e.bits == 20 && e.size == SECTION && e.vpn < TOP / SECTION)
    || (e.bits == 0 && e.size == 0)
  }

  function Blank(): Entry { Entry(0, 0, 0, 0, 0, true, 0, 0) }

  // ---------------------------------------------------------------- the walk

  /** 2^(32-n) for the three-bit field n of TTBCR. */
  function Span(n: nat): (r: nat)
    ensures r > 0
  {
    if n == 0 then TOP
    else if n == 1 then 0x8000_0000
    else if n == 2 then 0x4000_0000
    else if n == 3 then 0x2000_0000
    else if n == 4 then 0x1000_0000
    else if n == 5 then 0x800_0000
    else if n == 6 then 0x400_0000
    else 0x200_0000
  }

  /** The address of the first-level descriptor: TTBR1 when any of the top n address bits is set, else TTBR0. */
  function DescriptorAddress(c: Config, v: Word): int
  {
    var n := c.ttbcr % 8;
    if n > 0 && v / Span(n) != 0 then c.ttbr1 / 0x4000 * 0x4000 + v / SECTION * 4
    else
      var align := Span(n) / 0x4_0000;
      c.ttbr0 / align * align + v % Span(n) / SECTION * 4
  }

  function Field2(x: Word, k: nat): nat
    decreases k
  {
    if k == 0 then x % 4 else Field2(x / 4, k - 1)
  }

  function Walk(c: Config, asid: Asid, v: Word): WalkResult
  {
    var content := c.memory(DescriptorAddress(c, v) % TOP);
    var domain := Field2(c.domains, content / 32 % 16);
    match content % 4
    case 1 =>
      var page := c.memory((content / 0x400 * 0x400 + v / PAGE % 256 * 4) % TOP);
      (match page % 4
       case 0 => PageFault
       case 1 => Unsupported                           // large pages end in a failed assertion
       case _ => Mapped(Entry(page / PAGE, v / PAGE, PAGE, 12, asid, true, page / 512 % 2, domain)))
    case 2 => Mapped(Entry(content / SECTION, v / SECTION, SECTION, 20, asid, true, content / 1024 % 4, domain))
    case _ => SectionFault
  }

  predicate Denied(e: Entry, mode: Mode)
  {
    mode == Write && e.bits == 12 && e.access == 1 && e.domain == 1
  }

  /** Status 5 or 7 for a missing section or page, 15 for a protected page; bit 11 marks a write. */
  function Report(mode: Mode, status: Word, v: Word): Outcome
    requires status < 16
  {
    Fault(mode == Execute, if mode == Write then status + 0x800 else status, v)
  }

  /** What a translation means: a fresh walk, then the write-permission check. */
  function Reference(c: Config, asid: Asid, v: Word, mode: Mode): Outcome
  {
    if !c.enabled then Crash
    else
      match Walk(c, asid, v)
      case SectionFault => Report(mode, 5, v)
      case PageFault => Report(mode, 7, v)
      case Unsupported => Crash
      case Mapped(e) => if Denied(e, mode) then Fault(false, 15 + 0x800, v) else Physical(Target(e, v))
  }

  /** The first-level descriptor lies in its table, on a word boundary, and its address needs no truncation. */
  lemma DescriptorPlace(c: Config, v: Word)
    ensures 0 <= DescriptorAddress(c, v) < TOP && DescriptorAddress(c, v) % 4 == 0
    ensures c.ttbcr % 8 == 0 ==> DescriptorAddress(c, v) == c.ttbr0 / 0x4000 * 0x4000 + v / SECTION * 4
  {
    var n := c.ttbcr % 8;
    Placed(c.ttbr1, 0x1000, 0x4_0000, v / SECTION);
    var a, m := TableWords(n);
    Nested(v, a);
    Placed(c.ttbr0, a, m, v % Span(n) / SECTION);
  }

  lemma TableWords(n: nat) returns (a: nat, m: nat)
    requires n < 8
    ensures a > 0 && Span(n) == a * SECTION && Span(n) / 0x4_0000 == 4 * a && m * (4 * a) == TOP
  {
    a := Span(n) / SECTION;
    m := TOP / (4 * a);
  }

  /** Word number index of the table of a words that base points into, when a table is 1/m of memory. */
  lemma Placed(base: Word, a: nat, m: nat, index: nat)
    requires a > 0 && m * (4 * a) == TOP && index < a
    ensures var address := base / (4 * a) * (4 * a) + index * 4; 0 <= address < TOP && address % 4 == 0
  {
    var w := 4 * a;
    var q := base / w;
    if q >= m { Monotone(m, q, w); }
    Monotone(q + 1, m, w);
    FourTimes(q, a, index);
  }

  lemma FourTimes(q: nat, a: nat, index: nat)
    ensures (q * (4 * a) + index * 4) % 4 == 0 && (q + 1) * (4 * a) == q * (4 * a) + 4 * a
  {
    assert q * (4 * a) + index * 4 == 4 * (q * a + index);
  }

  /** A mapped address keeps its offset in the page and gets the frame of the descriptor. */
  lemma TargetPlace(c: Config, asid: Asid, v: Word)
    requires Walk(c, asid, v).Mapped?
    ensures var e := Walk(c, asid, v).entry;
            && e.size > 0 && e.vpn == v / e.size && Target(e, v) == e.pfn * e.size + v % e.size
  {
    var e := Walk(c, asid, v).entry;
    WalkShape(c, asid, v);
    hide Walk;
    InFrame(e, v);
  }

  lemma WalkShape(c: Config, asid: Asid, v: Word)
    requires Walk(c, asid, v).Mapped?
    ensures var e := Walk(c, asid, v).entry;
            && ((e.bits == 12 && e.size == PAGE) || (e.bits == 20 && e.size == SECTION))
            && e.pfn < TOP / e.size && e.vpn == v / e.size
  {
  }

  lemma InFrame(e: Entry, v: Word)
    requires ((e.bits == 12 && e.size == PAGE) || (e.bits == 20 && e.size == SECTION)) && e.pfn < TOP / e.size
    ensures Target(e, v) == e.pfn * e.size + v % e.size
  {
  }

  // ---------------------------------------------------------------- the TLB

  type Table = seq<Entry>

  /** The index of the first matching entry from index i on. */
  function First(t: Table, v: Word, asid: Asid, i: nat): Option<nat>
    requires i <= |t|
    decreases |t| - i
  {
    if i == |t| then None else if Match(t[i], v, asid) then Some(i) else First(t, v, asid, i + 1)
  }

  function Insert(t: Table, e: Entry): Table
    requires |t| > 0
  {
    [e] + t[..|t| - 1]
  }

  function Invalid(e: Entry): Entry { e.(valid := false) }

  /** A hit: a forbidden write faults and drops the entry. */
  function Use(t: Table, i: nat, v: Word, mode: Mode): (Table, Outcome)
    requires i < |t| && t[i].size > 0
  {
    if Denied(t[i], mode) then (t[i := Invalid(t[i])], Fault(false, 15 + 0x800, v))
    else (t, Physical(Target(t[i], v)))
  }

  function Translate(t: Table, c: Config, asid: Asid, v: Word, mode: Mode): (Table, Outcome)
    requires |t| > 0
  {
    if !c.enabled then (t, Crash)
    else
      var hit := First(t, v, asid, 0);
      if hit.Some? && hit.value < |t| && t[hit.value].size > 0 then Use(t, hit.value, v, mode)
      else
        match Walk(c, asid, v)
        case SectionFault => (t, Report(mode, 5, v))
        case PageFault => (t, Report(mode, 7, v))
        case Unsupported => (t, Crash)
        case Mapped(e) =>
          var t' := Insert(t, e);
          var again := First(t', v, asid, 0);
          if again.Some? && again.value < |t'| && t'[again.value].size > 0 then Use(t', again.value, v, mode)
          else (t', Crash)
  }

  lemma {:induction false} FirstIs(t: Table, v: Word, asid: Asid, i: nat)
    requires i <= |t|
    ensures match First(t, v, asid, i)
            case Some(k) => i <= k < |t| && Match(t[k], v, asid) && forall j :: i <= j < k ==> !Match(t[j], v, asid)
            case None => forall j :: i <= j < |t| ==> !Match(t[j], v, asid)
    decreases |t| - i
  {
    if i < |t| { FirstIs(t, v, asid, i + 1); }
  }

  // ---------------------------------------------------------------- coherence

  /** The tables and registers of every address space. */
  type World = Asid -> Config

  ghost predicate EntryOk(e: Entry, w: World)
  {
    WellMade(e) && forall v: Word :: Match(e, v, e.asid) ==> Walk(w(e.asid), e.asid, v) == Mapped(e)
  }

  /** Every match gives what a fresh walk gives. */
  ghost predicate Coherent(t: Table, w: World)
  {
    forall i :: 0 <= i < |t| ==> EntryOk(t[i], w)
  }

  /** No two entries match the same address of the same address space. */
  ghost predicate Disjoint(t: Table)
  {
    forall i, j, v: Word, a: Asid :: 0 <= i < j < |t| && Match(t[i], v, a) ==> !Match(t[j], v, a)
  }

  lemma SameSelector(n: nat, v: Word, u: Word)
    requires n < 8 && v / SECTION == u / SECTION
    ensures (v / Span(n) != 0) == (u / Span(n) != 0)
    ensures v % Span(n) / SECTION == u % Span(n) / SECTION
  {
    var k := Span(n) / SECTION;
    assert Span(n) == k * SECTION;
    Nested(v, k);
    Nested(u, k);
  }

  /** Dividing by k sections is dividing the section number by k. */
  lemma Nested(v: Word, k: nat)
    requires k > 0
    ensures v / (k * SECTION) == v / SECTION / k
    ensures v % (k * SECTION) / SECTION == v / SECTION % k
  {
    var q, s := v / SECTION / k, v / SECTION % k;
    var r := v % SECTION;
    assert v == (q * k + s) * SECTION + r;
    var low := s * SECTION + r;
    assert 0 <= low < k * SECTION by { assert (s + 1) * SECTION <= k * SECTION; }
    assert v == q * (k * SECTION) + low;
    Quotient(v, k * SECTION, q, low);
  }

  /** Addresses in the same section are translated by the same first-level descriptor. */
  lemma SameDescriptor(c: Config, v: Word, u: Word)
    requires v / SECTION == u / SECTION
    ensures DescriptorAddress(c, v) == DescriptorAddress(c, u)
  {
    SameSelector(c.ttbcr % 8, v, u);
  }

  /** Every address of a mapped page walks to the same entry. */
  lemma PageUniform(c: Config, asid: Asid, v: Word, u: Word)
    requires Walk(c, asid, v).Mapped?
    requires u / Scale(Walk(c, asid, v).entry.bits) == v / Scale(Walk(c, asid, v).entry.bits)
    ensures Walk(c, asid, u) == Walk(c, asid, v)
  {
    if u / PAGE == v / PAGE {
      assert u / SECTION == u / PAGE / 256 && v / SECTION == v / PAGE / 256;
    }
    SameDescriptor(c, v, u);
  }

  lemma MatchSized(e: Entry, v: Word, asid: Asid)
    requires WellMade(e) && Match(e, v, asid)
    ensures e.size > 0
  {
  }

  lemma InvalidWellMade(e: Entry)
    ensures WellMade(Invalid(e)) == WellMade(e)
  {
  }

  /**
   An entry made by a walk is well made, and matches exactly the addresses of its page, unless the page
   ends at 2^32.
   */
  lemma EntryCovers(c: Config, asid: Asid, v: Word, u: Word)
    requires Walk(c, asid, v).Mapped?
    ensures var e := Walk(c, asid, v).entry;
            && WellMade(e) && e.valid && e.asid == asid && e.size == Scale(e.bits) > 0
            && (Covers(e, u) <==> !EndsAtTop(e) && u / Scale(e.bits) == v / Scale(e.bits))
  {
    var e := Walk(c, asid, v).entry;
    if e.bits == 12 { PageBounds(v, u, PAGE); } else { PageBounds(v, u, SECTION); }
  }

  lemma PageBounds(v: Word, u: Word, size: Word)
    requires size == PAGE || size == SECTION
    ensures var s := v / size * size;
            && s % TOP == s && s + size <= TOP
            && (s <= u < (s + size) % TOP <==> s + size != TOP && u / size == v / size)
  {
  }

  lemma WalkEntryOk(w: World, asid: Asid, v: Word)
    requires Walk(w(asid), asid, v).Mapped?
    ensures EntryOk(Walk(w(asid), asid, v).entry, w)
  {
    var e := Walk(w(asid), asid, v).entry;
    EntryCovers(w(asid), asid, v, v);
    forall u: Word | Match(e, u, asid) ensures Walk(w(asid), asid, u) == Mapped(e) {
      EntryCovers(w(asid), asid, v, u);
      PageUniform(w(asid), asid, v, u);
    }
  }

  // ---------------------------------------------------------------- one translation

  lemma UseKeeps(t: Table, w: World, i: nat, asid: Asid, v: Word, mode: Mode)
    requires Coherent(t, w) && Disjoint(t) && i < |t| && Match(t[i], v, asid) && w(asid).enabled
    ensures t[i].size > 0
    ensures var (t', o) := Use(t, i, v, mode);
            |t'| == |t| && Coherent(t', w) && Disjoint(t') && o == Reference(w(asid), asid, v, mode)
  {
    assert EntryOk(t[i], w);
    var (t', o) := Use(t, i, v, mode);
    assert WellMade(t[i]) && t[i].size > 0;
    forall k | 0 <= k < |t'| ensures EntryOk(t'[k], w) { assert EntryOk(t[k], w); }
    assert Disjoint(t') by {
      hide Walk, Reference, Covers;
    }
  }

  lemma InsertKeeps(t: Table, w: World, asid: Asid, v: Word)
    requires Coherent(t, w) && Disjoint(t) && |t| > 0
    requires Walk(w(asid), asid, v).Mapped? && First(t, v, asid, 0) == None
    ensures var t' := Insert(t, Walk(w(asid), asid, v).entry); Coherent(t', w) && Disjoint(t')
  {
    var e := Walk(w(asid), asid, v).entry;
    var t' := Insert(t, e);
    FirstIs(t, v, asid, 0);
    WalkEntryOk(w, asid, v);
    forall j, u: Word, a: Asid | 0 < j < |t'| && Match(e, u, a) ensures !Match(t'[j], u, a) {
      NoClash(t, w, asid, v, j - 1, u, a);
    }
    hide Walk, Covers, WellMade;
    assert forall j :: 0 < j < |t'| ==> t'[j] == t[j - 1];
  }

  /** If an old entry shared an address with a new one, a walk of that address would make them equal. */
  lemma NoClash(t: Table, w: World, asid: Asid, v: Word, j: nat, u: Word, a: Asid)
    requires Coherent(t, w) && j < |t| && Walk(w(asid), asid, v).Mapped? && !Match(t[j], v, asid)
    requires Match(Walk(w(asid), asid, v).entry, u, a)
    ensures !Match(t[j], u, a)
  {
    var e := Walk(w(asid), asid, v).entry;
    EntryCovers(w(asid), asid, v, u);
    EntryCovers(w(asid), asid, v, v);
    WalkEntryOk(w, asid, v);
    if Match(t[j], u, a) { Agree(t[j], e, w, u, a); }
  }

  lemma Agree(e: Entry, f: Entry, w: World, u: Word, a: Asid)
    requires EntryOk(e, w) && EntryOk(f, w) && Match(e, u, a) && Match(f, u, a)
    ensures e == f
  {
    assert Mapped(e) == Walk(w(a), a, u) == Mapped(f);
  }

  /** The page of v, when mapped, ends at 2^32. */
  predicate AtTop(c: Config, asid: Asid, v: Word)
  {
    Walk(c, asid, v).Mapped? && EndsAtTop(Walk(c, asid, v).entry)
  }

  /**
   A translation keeps the TLB coherent and disjoint, and its result is the
   reference translation exactly when the page does not end at 2^32; there the
   assertion after the second lookup fails.
   */
  lemma TranslateKeeps(t: Table, w: World, asid: Asid, v: Word, mode: Mode)
    requires Coherent(t, w) && Disjoint(t) && |t| > 0
    ensures var (t', o) := Translate(t, w(asid), asid, v, mode);
            && |t'| == |t| && Coherent(t', w) && Disjoint(t')
            && (o == Reference(w(asid), asid, v, mode) <==> !(w(asid).enabled && AtTop(w(asid), asid, v)))
            && (AtTop(w(asid), asid, v) ==> o == Crash)
  {
    var c := w(asid);
    if c.enabled {
      FirstIs(t, v, asid, 0);
      var hit := First(t, v, asid, 0);
      if hit.Some? {
        UseKeeps(t, w, hit.value, asid, v, mode);
        HitNotAtTop(t, w, hit.value, asid, v);
      } else if Walk(c, asid, v).Mapped? {
        InsertKeeps(t, w, asid, v);
        EntryCovers(c, asid, v, v);
        var t' := Insert(t, Walk(c, asid, v).entry);
        FirstIs(t', v, asid, 0);
        if !AtTop(c, asid, v) {
          assert Match(t'[0], v, asid);
          UseKeeps(t', w, 0, asid, v, mode);
        } else {
          assert forall j :: 0 < j < |t'| ==> t'[j] == t[j - 1];
          assert First(t', v, asid, 0) == None;
        }
      }
    }
  }

  lemma HitNotAtTop(t: Table, w: World, i: nat, asid: Asid, v: Word)
    requires Coherent(t, w) && i < |t| && Match(t[i], v, asid)
    ensures !AtTop(w(asid), asid, v)
  {
    assert EntryOk(t[i], w);
    EntryCovers(w(asid), asid, v, v);
  }

  /** The entry just inserted is the one the second lookup finds, unless its page ends at 2^32. */
  lemma SecondLookup(t: Table, c: Config, asid: Asid, v: Word)
    requires |t| > 0 && Walk(c, asid, v).Mapped? && First(t, v, asid, 0) == None
    ensures First(Insert(t, Walk(c, asid, v).entry), v, asid, 0) == if AtTop(c, asid, v) then None else Some(0)
  {
    var t' := Insert(t, Walk(c, asid, v).entry);
    FirstIs(t, v, asid, 0);
    FirstIs(t', v, asid, 0);
    EntryCovers(c, asid, v, v);
    assert forall j :: 0 < j < |t'| ==> t'[j] == t[j - 1];
  }

  // ---------------------------------------------------------------- invalidation

  function InvalidateAll(t: Table): (r: Table)
    ensures |r| == |t| && forall i :: 0 <= i < |t| ==> r[i] == Invalid(t[i])
  {
    seq(|t|, i requires 0 <= i < |t| => Invalid(t[i]))
  }

  function InvalidateAsid(t: Table, a: Asid): (r: Table)
    ensures |r| == |t| && forall i :: 0 <= i < |t| ==> r[i] == if t[i].asid == a then Invalid(t[i]) else t[i]
  {
    seq(|t|, i requires 0 <= i < |t| => if t[i].asid == a then Invalid(t[i]) else t[i])
  }

  /** The first valid entry covering the address, of whatever address space, from index i on. */
  function FirstCover(t: Table, v: Word, i: nat): Option<nat>
    requires i <= |t|
    decreases |t| - i
  {
    if i == |t| then None else if t[i].valid && Covers(t[i], v) then Some(i) else FirstCover(t, v, i + 1)
  }

  /** Invalidation by address stops at the first covering entry and does not look at its address space. */
  function InvalidateMva(t: Table, v: Word): Table
  {
    var k := FirstCover(t, v, 0);
    if k.Some? && k.value < |t| then t[k.value := Invalid(t[k.value])] else t
  }

  /** r has dropped some entries of t. */
  predicate Drops(t: Table, r: Table)
  {
    |r| == |t| && forall i :: 0 <= i < |t| ==> r[i] == t[i] || r[i] == Invalid(t[i])
  }

  lemma DropsKeeps(t: Table, r: Table, w: World)
    requires Coherent(t, w) && Disjoint(t) && Drops(t, r)
    ensures Coherent(r, w) && Disjoint(r)
  {
    forall i | 0 <= i < |r| ensures EntryOk(r[i], w) { assert EntryOk(t[i], w); }
    hide Walk, Covers;
  }

  /** After any change of tables and registers at all, dropping everything restores coherence. */
  lemma AllRestores(t: Table, w: World, w': World)
    requires Coherent(t, w) && Disjoint(t)
    ensures Coherent(InvalidateAll(t), w') && Disjoint(InvalidateAll(t))
  {
    forall i | 0 <= i < |t| ensures EntryOk(Invalid(t[i]), w') { assert EntryOk(t[i], w); }
  }

  /** After a change confined to one address space, dropping its entries restores coherence. */
  lemma AsidRestores(t: Table, w: World, w': World, a: Asid)
    requires Coherent(t, w) && Disjoint(t) && forall b: Asid :: b != a ==> w'(b) == w(b)
    ensures Coherent(InvalidateAsid(t, a), w') && Disjoint(InvalidateAsid(t, a))
  {
    DropsKeeps(t, InvalidateAsid(t, a), w);
    forall i | 0 <= i < |t| ensures EntryOk(InvalidateAsid(t, a)[i], w') { assert EntryOk(t[i], w); }
  }

  lemma {:induction false} FirstCoverIs(t: Table, v: Word, i: nat)
    requires i <= |t|
    ensures match FirstCover(t, v, i)
            case Some(k) => i <= k < |t| && t[k].valid && Covers(t[k], v)
                            && forall j :: i <= j < k ==> !(t[j].valid && Covers(t[j], v))
            case None => forall j :: i <= j < |t| ==> !(t[j].valid && Covers(t[j], v))
    decreases |t| - i
  {
    if i < |t| { FirstCoverIs(t, v, i + 1); }
  }

  /**
   Invalidation by address leaves no match in address space a exactly when
   there was none, or no other address space's entry for it comes first.
   */
  lemma MvaRemoves(t: Table, v: Word, a: Asid)
    requires Disjoint(t)
    ensures First(InvalidateMva(t, v), v, a, 0) == None <==>
            First(t, v, a, 0) == None || FirstCover(t, v, 0) == First(t, v, a, 0)
  {
    var r := InvalidateMva(t, v);
    FirstIs(t, v, a, 0);
    FirstIs(r, v, a, 0);
    FirstCoverIs(t, v, 0);
    var here, there := First(t, v, a, 0), First(r, v, a, 0);
    if here.Some? {
      assert FirstCover(t, v, 0).Some?;
      if there.Some? { assert Match(t[there.value], v, a); }
      if FirstCover(t, v, 0) != here { assert Match(r[here.value], v, a); }
    }
  }

  /** Two address spaces share an address: invalidating it for the second leaves the second's entry in place. */
  lemma MvaMisses()
    ensures var t := [Entry(7, 1, PAGE, 12, 1, true, 0, 0), Entry(8, 1, PAGE, 12, 2, true, 0, 0)];
            Disjoint(t) && First(t, 0x1000, 2, 0) == Some(1) && First(InvalidateMva(t, 0x1000), 0x1000, 2, 0) == Some(1)
  {
    var t := [Entry(7, 1, PAGE, 12, 1, true, 0, 0), Entry(8, 1, PAGE, 12, 2, true, 0, 0)];
    assert Match(t[1], 0x1000, 2) && t[0].valid && Covers(t[0], 0x1000);
    FirstIs(t, 0x1000, 2, 0);
    FirstCoverIs(t, 0x1000, 0);
    assert InvalidateMva(t, 0x1000)[1] == t[1] && !InvalidateMva(t, 0x1000)[0].valid;
    FirstIs(InvalidateMva(t, 0x1000), 0x1000, 2, 0);
  }

  // ---------------------------------------------------------------- runs

  datatype Event =
    | Access(asid: Asid, v: Word, mode: Mode)
    | DropAll(changed: World)                        // any tables or registers changed, then all was invalidated
    | DropAsid(a: Asid, changed: World)              // those of one address space changed, then it was invalidated
    | DropMva(v: Word)

  datatype State = State(table: Table, world: World, last: Option<Outcome>)

  ghost predicate Allowed(s: State, e: Event)
  {
    && (s.last.Some? ==> s.last.value != Crash)
    && (e.DropAsid? ==> forall b: Asid :: b != e.a ==> e.changed(b) == s.world(b))
  }

  function Apply(s: State, e: Event): State
    requires |s.table| > 0
  {
    match e
    case Access(asid, v, mode) =>
      var (t, o) := Translate(s.table, s.world(asid), asid, v, mode);
      State(t, s.world, Some(o))
    case DropAll(w) => State(InvalidateAll(s.table), w, None)
    case DropAsid(a, w) => State(InvalidateAsid(s.table, a), w, None)
    case DropMva(v) => State(InvalidateMva(s.table, v), s.world, None)
  }

  ghost predicate IsRun(states: seq<State>, events: seq<Event>)
  {
    && |states| == |events| + 1
    && |states[0].table| > 0 && (forall i :: 0 <= i < |states[0].table| ==> states[0].table[i] == Blank())
    && forall k :: 0 <= k < |events| ==>
         Allowed(states[k], events[k]) && |states[k].table| > 0 && states[k + 1] == Apply(states[k], events[k])
  }

  lemma {:induction false} RunCoherent(states: seq<State>, events: seq<Event>, n: nat)
    requires IsRun(states, events) && n <= |events|
    ensures |states[n].table| > 0 && Coherent(states[n].table, states[n].world) && Disjoint(states[n].table)
  {
    hide Walk, Covers, EntryOk, Disjoint, Translate;
    if n == 0 {
      BlankCoherent(states[0].table, states[0].world);
    } else {
      RunCoherent(states, events, n - 1);
      var s := states[n - 1];
      match events[n - 1]
      case Access(asid, v, mode) => TranslateKeeps(s.table, s.world, asid, v, mode);
      case DropAll(w) => AllRestores(s.table, s.world, w);
      case DropAsid(a, w) => AsidRestores(s.table, s.world, w, a);
      case DropMva(v) => DropsKeeps(s.table, InvalidateMva(s.table, v), s.world);
    }
  }

  lemma BlankCoherent(t: Table, w: World)
    requires forall i :: 0 <= i < |t| ==> t[i] == Blank()
    ensures Coherent(t, w) && Disjoint(t)
  {
  }

  /** In any run every translation gives the reference result, exactly when the page does not end at 2^32. */
  lemma RunTranslates(states: seq<State>, events: seq<Event>, n: nat)
    requires IsRun(states, events) && n < |events| && events[n].Access?
    ensures var e, c := events[n], states[n].world(events[n].asid);
            states[n + 1].last == Some(Reference(c, e.asid, e.v, e.mode)) <==> !(c.enabled && AtTop(c, e.asid, e.v))
  {
    RunCoherent(states, events, n);
    TranslateKeeps(states[n].table, states[n].world, events[n].asid, events[n].v, events[n].mode);
  }

  // ---------------------------------------------------------------- the unit in place

  class Mmu {
    const table: array<Entry>

    constructor (size: nat)
      requires size > 0
      ensures fresh(table) && table.Length == size && forall i :: 0 <= i < size ==> table[i] == Blank()
    {
      table := new Entry[size](_ => Blank());
    }

    method Lookup(v: Word, asid: Asid) returns (r: Option<nat>)
      ensures r == First(table[..], v, asid, 0)
      ensures r.Some? ==> r.value < table.Length && Match(table[r.value], v, asid)
    {
      r := None;
      var x := 0;
      while x < table.Length
        invariant x <= table.Length && First(table[..], v, asid, 0) == First(table[..], v, asid, x)
      {
        if Match(table[x], v, asid) {
          return Some(x);
        }
        x := x + 1;
      }
    }

    method InsertEntry(e: Entry)
      requires table.Length > 0
      modifies table
      ensures table[..] == Insert(old(table[..]), e)
    {
      var i := table.Length - 1;
      while i > 0
        invariant 0 <= i < table.Length
        invariant table[..i + 1] == old(table[..i + 1])
        invariant table[i + 1..] == old(table[i..table.Length - 1])
      {
        table[i] := table[i - 1];
        i := i - 1;
      }
      table[0] := e;
    }

    method TranslateAddress(c: Config, asid: Asid, v: Word, mode: Mode) returns (o: Outcome)
      requires table.Length > 0 && forall i :: 0 <= i < table.Length ==> WellMade(table[i])
      modifies table
      ensures (table[..], o) == Translate(old(table[..]), c, asid, v, mode)
      ensures forall i :: 0 <= i < table.Length ==> WellMade(table[i])
    {
      hide Walk, Covers, WellMade, Scale;
      if !c.enabled {
        return Crash;
      }
      var te := Lookup(v, asid);
      if te.None? {
        match Walk(c, asid, v) {
          case SectionFault => return Report(mode, 5, v);
          case PageFault => return Report(mode, 7, v);
          case Unsupported => return Crash;
          case Mapped(e) =>
            EntryCovers(c, asid, v, v);
            InsertEntry(e);
            te := Lookup(v, asid);
            if te.None? {
              return Crash;
            }
        }
      }
      var e := table[te.value];
      MatchSized(e, v, asid);
      InvalidWellMade(e);
      if Denied(e, mode) {
        table[te.value] := Invalid(e);
        return Fault(false, 15 + 0x800, v);
      }
      return Physical(Target(e, v));
    }

    method InvalidAll()
      modifies table
      ensures table[..] == InvalidateAll(old(table[..]))
    {
      for i := 0 to table.Length
        invariant forall j :: 0 <= j < table.Length ==>
          table[j] == if j < i then Invalid(old(table[j])) else old(table[j])
      {
        table[i] := Invalid(table[i]);
      }
    }

    method InvalidByAsid(a: Asid)
      modifies table
      ensures table[..] == InvalidateAsid(old(table[..]), a)
    {
      for i := 0 to table.Length
        invariant forall j :: 0 <= j < table.Length ==>
          table[j] == if j < i && old(table[j]).asid == a then Invalid(old(table[j])) else old(table[j])
      {
        if table[i].asid == a && table[i].valid {
          table[i] := Invalid(table[i]);
        }
      }
    }

    method InvalidByMva(v: Word)
      modifies table
      ensures table[..] == InvalidateMva(old(table[..]), v)
    {
      var i := 0;
      while i < table.Length
        invariant i <= table.Length && table[..] == old(table[..])
        invariant FirstCover(table[..], v, 0) == FirstCover(table[..], v, i)
      {
        if table[i].valid && Covers(table[i], v) {
          table[i] := Invalid(table[i]);
          return;
        }
        i := i + 1;
      }
    }
  }
}
