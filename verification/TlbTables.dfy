/**
 Translation tables laid out in memory from a plain plan of the address space, and
 what a translation must then answer.  The plan says, for each megabyte and each page,
 where it is and who may write it; the layout follows the short-descriptor format
 (section B3.5.1 of ARM DDI 0406C), with the bits that carry nothing left open.
 */
module TlbTables {
  import opened Words
  import opened Wrappers
  import opened Arithmetic
  import opened Tlb

  // ---------------------------------------------------------------- the plan

  type Megabyte = x: int | 0 <= x < 0x1000
  type PageNumber = x: int | 0 <= x < 0x10_0000
  type Bits2 = x: int | 0 <= x < 4
  type Bits3 = x: int | 0 <= x < 8
  type Bits4 = x: int | 0 <= x < 16
  type Bits7 = x: int | 0 <= x < 0x80
  type Bits10 = x: int | 0 <= x < 0x400
  type Bits30 = x: int | 0 <= x < 0x4000_0000

  /** A megabyte is missing, mapped as a whole to a physical megabyte, or divided into pages; the rest is free. */
  datatype Area =
    | Hole(reserved: bool, free: Bits30)
    | Whole(frame: Megabyte, domain: Bits4, upper: Bits10, flag: bool, low: Bits3)
    | Paged(domain: Bits4, flag: bool, low: Bits3)

  /** A page is missing, or mapped to a physical page, perhaps for reading only. */
  datatype Leaf =
    | Gap(free: Bits30)
    | Small(frame: PageNumber, readOnly: bool, upper: Bits2, low: Bits7, extended: bool)

  /** `roles` gives each of the sixteen domains two bits: 1 makes it a client, whose pages' permissions are checked. */
  datatype Plan = Plan(area: Megabyte -> Area, leaf: PageNumber -> Leaf, roles: seq<Bits2>)

  /** A missing section or page: a data fault, marked for writes, or an instruction fault. */
  function Missing(status: Word, v: Word, mode: Mode): Outcome
    requires status < 0x800
  {
    match mode
    case Read => Fault(false, status, v)
    case Write => Fault(false, 0x800 + status, v)
    case Execute => Fault(true, status, v)
  }

  /** What the plan answers for an address. */
  function Planned(p: Plan, v: Word, mode: Mode): Outcome
    requires |p.roles| == 16
  {
    match p.area(v / SECTION)
    case Hole(_, _) => Missing(5, v, mode)
    case Whole(frame, _, _, _, _) => Physical(frame * SECTION + v % SECTION)
    case Paged(domain, _, _) =>
      match p.leaf(v / PAGE)
      case Gap(_) => Missing(7, v, mode)
      case Small(frame, readOnly, _, _, _) =>
        if mode == Write && readOnly && p.roles[domain] == 1 then Fault(false, 0x80F, v)
        else Physical(frame * PAGE + v % PAGE)
  }

  /** The address lies in the last megabyte or page below 2^32, and it is mapped. */
  predicate PlannedLast(p: Plan, v: Word)
  {
    match p.area(v / SECTION)
    case Hole(_, _) => false
    case Whole(_, _, _, _, _) => v / SECTION == 0xFFF
    case Paged(_, _, _) => v / PAGE == 0xF_FFFF && p.leaf(v / PAGE).Small?
  }

  // ---------------------------------------------------------------- the layout

  function Bit(b: bool): nat { if b then 1 else 0 }

  /** The first-level descriptor of an area; `block` is the number of the kilobyte that holds its pages. */
  function AreaWord(a: Area, block: nat): Word
    requires block < 0x40_0000
  {
    match a
    case Hole(reserved, free) => free * 4 + (if reserved then 3 else 0)
    case Whole(frame, domain, upper, flag, low) =>
      frame * 0x10_0000 + upper * 0x400 + Bit(flag) * 0x200 + domain * 0x20 + low * 4 + 2
    case Paged(domain, flag, low) => block * 0x400 + Bit(flag) * 0x200 + domain * 0x20 + low * 4 + 1
  }

  function LeafWord(l: Leaf): Word
  {
    match l
    case Gap(free) => free * 4
    case Small(frame, readOnly, upper, low, extended) =>
      frame * 0x1000 + upper * 0x400 + Bit(readOnly) * 0x200 + low * 4 + (if extended then 3 else 2)
  }

  /** 4^k. */
  function Power4(k: nat): nat { if k == 0 then 1 else 4 * Power4(k - 1) }

  function RolesWord(roles: seq<Bits2>): (r: nat)
    ensures r < Power4(|roles|)
  {
    if roles == [] then 0 else roles[0] + 4 * RolesWord(roles[1..])
  }

  /**
   Where the tables are: the first megabytes, a 2^-split part of all, have their
   descriptors in the first table and the others in the second, at bases given in
   units of their size; the pages of each divided megabyte are in a kilobyte of their own.
   */
  datatype Layout = Layout(split: Bits3, first: nat, second: nat, blocks: Megabyte -> nat)

  /** The number of megabytes in the first table. */
  function FirstPart(split: Bits3): nat
  {
    match split
    case 0 => 0x1000
    case 1 => 0x800
    case 2 => 0x400
    case 3 => 0x200
    case 4 => 0x100
    case 5 => 0x80
    case 6 => 0x40
    case 7 => 0x20
  }

  predicate Fits(y: Layout)
  {
    && (y.first + 1) * (4 * FirstPart(y.split)) <= TOP
    && (y.second + 1) * 0x4000 <= TOP
    && forall m: Megabyte :: y.blocks(m) < 0x40_0000
  }

  function AreaAddress(y: Layout, m: Megabyte): nat
  {
    if m < FirstPart(y.split) then y.first * (4 * FirstPart(y.split)) + 4 * m else y.second * 0x4000 + 4 * m
  }

  function LeafAddress(y: Layout, n: PageNumber): nat
  {
    y.blocks(n / 0x100) * 0x400 + 4 * (n % 0x100)
  }

  lemma AddressesFit(y: Layout, m: Megabyte, n: PageNumber)
    requires Fits(y)
    ensures AreaAddress(y, m) < TOP && LeafAddress(y, n) < TOP
  {
    var w := 4 * FirstPart(y.split);
    assert (y.first + 1) * w == y.first * w + w;
    assert y.blocks(n / 0x100) < 0x40_0000;
  }

  /** The registers and the memory hold the tables of the plan. */
  ghost predicate Holds(c: Config, y: Layout, p: Plan)
  {
    && Fits(y) && |p.roles| == 16
    && c.enabled && c.ttbcr % 8 == y.split
    && c.ttbr0 / (4 * FirstPart(y.split)) == y.first && c.ttbr1 / 0x4000 == y.second
    && c.domains == RolesWord(p.roles)
    && (forall m: Megabyte :: AreaAddress(y, m) < TOP && c.memory(AreaAddress(y, m)) == AreaWord(p.area(m), y.blocks(m)))
    && (forall n: PageNumber :: p.area(n / 0x100).Paged? ==>
          LeafAddress(y, n) < TOP && c.memory(LeafAddress(y, n)) == LeafWord(p.leaf(n)))
  }

  // ---------------------------------------------------------------- reading it back

  lemma {:induction false} RoleRead(roles: seq<Bits2>, k: nat)
    requires k < |roles| && RolesWord(roles) < TOP
    ensures Field2(RolesWord(roles), k) == roles[k]
  {
    var rest := RolesWord(roles[1..]);
    Quotient(RolesWord(roles), 4, rest, roles[0]);
    if k > 0 { RoleRead(roles[1..], k - 1); }
  }

  /** The walk looks for a megabyte's descriptor where the layout has put it. */
  lemma AreaFound(c: Config, y: Layout, v: Word)
    requires Fits(y) && c.ttbcr % 8 == y.split
    requires c.ttbr0 / (4 * FirstPart(y.split)) == y.first && c.ttbr1 / 0x4000 == y.second
    ensures DescriptorAddress(c, v) == AreaAddress(y, v / SECTION)
  {
    var n, k := y.split, FirstPart(y.split);
    assert Span(n) == k * SECTION && Span(n) / 0x4_0000 == 4 * k;
    Nested(v, k);
    if v / SECTION < k { Keep(v / SECTION, k); }
    else if n > 0 { assert v / SECTION / k != 0 by { QuotientPositive(v / SECTION, k); } }
  }

  lemma QuotientPositive(x: nat, k: nat)
    requires 0 < k <= x
    ensures x / k > 0
  {
    assert x == x / k * k + x % k && x % k < k;
  }

  lemma WholeFields(frame: Megabyte, upper: Bits10, flag: bool, domain: Bits4, low: Bits3)
    ensures var w := frame * 0x10_0000 + upper * 0x400 + Bit(flag) * 0x200 + domain * 0x20 + low * 4 + 2;
            w % 4 == 2 && w / SECTION == frame && w / 32 % 16 == domain
  {
    var b := Bit(flag);
    var w := frame * 0x10_0000 + upper * 0x400 + b * 0x200 + domain * 0x20 + low * 4 + 2;
    var above := frame * 0x800 + upper * 2 + b;
    Quotient(w, 4, (above * 16 + domain) * 8 + low, 2);
    Quotient(w, SECTION, frame, upper * 0x400 + b * 0x200 + domain * 0x20 + low * 4 + 2);
    Quotient(w, 32, above * 16 + domain, low * 4 + 2);
    Quotient(above * 16 + domain, 16, above, domain);
  }

  lemma PagedFields(block: nat, flag: bool, domain: Bits4, low: Bits3)
    ensures var w := block * 0x400 + Bit(flag) * 0x200 + domain * 0x20 + low * 4 + 1;
            w % 4 == 1 && w / 0x400 == block && w / 32 % 16 == domain
  {
    var b := Bit(flag);
    var w := block * 0x400 + b * 0x200 + domain * 0x20 + low * 4 + 1;
    var above := block * 2 + b;
    Quotient(w, 4, (above * 16 + domain) * 8 + low, 1);
    Quotient(w, 0x400, block, b * 0x200 + domain * 0x20 + low * 4 + 1);
    Quotient(w, 32, above * 16 + domain, low * 4 + 1);
    Quotient(above * 16 + domain, 16, above, domain);
  }

  lemma SmallFields(frame: PageNumber, upper: Bits2, b: nat, low: Bits7, kind: Bits2)
    requires b < 2
    ensures var w := frame * 0x1000 + upper * 0x400 + b * 0x200 + low * 4 + kind;
            w % 4 == kind && w / PAGE == frame && w / 512 % 2 == b
  {
    var w := frame * 0x1000 + upper * 0x400 + b * 0x200 + low * 4 + kind;
    Quotient(w, 4, frame * 0x400 + upper * 0x100 + b * 0x80 + low, kind);
    Quotient(w, PAGE, frame, upper * 0x400 + b * 0x200 + low * 4 + kind);
    Quotient(w, 512, (frame * 4 + upper) * 2 + b, low * 4 + kind);
    Quotient((frame * 4 + upper) * 2 + b, 2, frame * 4 + upper, b);
  }

  lemma AreaFields(a: Area, block: nat)
    requires block < 0x40_0000
    ensures var w := AreaWord(a, block);
            match a
            case Hole(_, _) => w % 4 == 0 || w % 4 == 3
            case Whole(frame, domain, _, _, _) => w % 4 == 2 && w / SECTION == frame && w / 32 % 16 == domain
            case Paged(domain, _, _) => w % 4 == 1 && w / 0x400 == block && w / 32 % 16 == domain
  {
    match a
    case Hole(reserved, free) => Quotient(AreaWord(a, block), 4, free, if reserved then 3 else 0);
    case Whole(frame, domain, upper, flag, low) => WholeFields(frame, upper, flag, domain, low);
    case Paged(domain, flag, low) => PagedFields(block, flag, domain, low);
  }

  lemma LeafFields(l: Leaf)
    ensures var w := LeafWord(l);
            match l
            case Gap(_) => w % 4 == 0
            case Small(frame, readOnly, _, _, _) =>
              w % 4 >= 2 && w / PAGE == frame && w / 512 % 2 == (if readOnly then 1 else 0)
  {
    match l
    case Gap(free) => Quotient(LeafWord(l), 4, free, 0);
    case Small(frame, readOnly, upper, low, extended) =>
      SmallFields(frame, upper, Bit(readOnly), low, if extended then 3 else 2);
  }

  /** The page of an address is one of the pages of its megabyte. */
  lemma PageWithin(v: Word)
    ensures v / PAGE / 0x100 == v / SECTION && v / PAGE % 0x100 == v / PAGE % 256
    ensures v / PAGE < 0x10_0000 && v / SECTION < 0x1000
  {
  }

  lemma LeafFound(y: Layout, p: Plan, m: Megabyte, v: Word)
    requires Fits(y) && m == v / SECTION && p.area(m).Paged?
    ensures var w := AreaWord(p.area(m), y.blocks(m)); w / 0x400 * 0x400 + v / PAGE % 256 * 4 == LeafAddress(y, v / PAGE)
  {
    PageWithin(v);
    AreaFields(p.area(m), y.blocks(m));
  }

  /** What the layout's memory tells the walk about a megabyte. */
  lemma AreaRead(c: Config, y: Layout, p: Plan, v: Word)
    requires Holds(c, y, p)
    ensures v / SECTION < 0x1000 && y.blocks(v / SECTION) < 0x40_0000
    ensures c.memory(DescriptorAddress(c, v) % TOP) == AreaWord(p.area(v / SECTION), y.blocks(v / SECTION))
  {
    AreaFound(c, y, v);
    PageWithin(v);
    var m: Megabyte := v / SECTION;
    assert c.memory(AreaAddress(y, m)) == AreaWord(p.area(m), y.blocks(m));
    hide DescriptorAddress, AreaAddress, FirstPart, LeafAddress, RolesWord;
  }

  lemma LeafHeld(c: Config, y: Layout, p: Plan, v: Word)
    requires Holds(c, y, p) && p.area(v / SECTION).Paged?
    ensures v / PAGE < 0x10_0000 && y.blocks(v / SECTION) < 0x40_0000
    ensures LeafAddress(y, v / PAGE) < TOP && c.memory(LeafAddress(y, v / PAGE)) == LeafWord(p.leaf(v / PAGE))
  {
    hide AreaWord, LeafWord, AreaAddress, LeafAddress, RolesWord, FirstPart;
    PageWithin(v);
    var m: Megabyte, n: PageNumber := v / SECTION, v / PAGE;
    assert p.area(n / 0x100).Paged? && y.blocks(m) < 0x40_0000;
  }

  lemma LeafRead(c: Config, y: Layout, p: Plan, v: Word)
    requires Holds(c, y, p) && p.area(v / SECTION).Paged?
    ensures var w := c.memory(DescriptorAddress(c, v) % TOP);
            && w % 4 == 1 && w / 32 % 16 == p.area(v / SECTION).domain
            && c.memory((w / 0x400 * 0x400 + v / PAGE % 256 * 4) % TOP) == LeafWord(p.leaf(v / PAGE))
  {
    hide Holds, Fits, DescriptorAddress, AreaWord, LeafWord, LeafAddress;
    AreaRead(c, y, p, v);
    LeafHeld(c, y, p, v);
    AreaFields(p.area(v / SECTION), y.blocks(v / SECTION));
    FitsOf(c, y, p);
    LeafFound(y, p, v / SECTION, v);
    Keep(LeafAddress(y, v / PAGE), TOP);
  }

  lemma FitsOf(c: Config, y: Layout, p: Plan)
    requires Holds(c, y, p)
    ensures Fits(y)
  {
  }

  /** The two bits of the domain that a megabyte belongs to. */
  lemma RoleFound(c: Config, y: Layout, p: Plan, domain: Bits4)
    requires Holds(c, y, p)
    ensures Field2(c.domains, domain) == p.roles[domain]
  {
    RoleRead(p.roles, domain);
  }

  /** What the walk makes of a megabyte that is divided into pages. */
  lemma WalkPaged(c: Config, y: Layout, p: Plan, asid: Asid, v: Word)
    requires Holds(c, y, p) && p.area(v / SECTION).Paged?
    ensures Walk(c, asid, v) ==
            match p.leaf(v / PAGE)
            case Gap(_) => PageFault
            case Small(frame, readOnly, _, _, _) =>
              Mapped(Entry(frame, v / PAGE, PAGE, 12, asid, true, if readOnly then 1 else 0,
                           p.roles[p.area(v / SECTION).domain]))
  {
    LeafRead(c, y, p, v);
    LeafFields(p.leaf(v / PAGE));
    RoleFound(c, y, p, p.area(v / SECTION).domain);
    hide Holds, AreaWord, LeafWord, DescriptorAddress, Field2;
  }

  lemma WalkWhole(c: Config, y: Layout, p: Plan, asid: Asid, v: Word)
    requires Holds(c, y, p) && !p.area(v / SECTION).Paged?
    ensures match p.area(v / SECTION)
            case Hole(_, _) => Walk(c, asid, v) == SectionFault
            case Whole(frame, domain, _, _, _) =>
              var r := Walk(c, asid, v);
              && r.Mapped? && r.entry.pfn == frame && r.entry.vpn == v / SECTION
              && r.entry.size == SECTION && r.entry.bits == 20
            case Paged(_, _, _) => true
  {
    AreaRead(c, y, p, v);
    AreaFields(p.area(v / SECTION), y.blocks(v / SECTION));
    hide Holds, AreaWord, DescriptorAddress, Field2;
  }

  /** A translation answers exactly what the plan says, whatever the plan, the layout, the address and the access. */
  lemma AnswersPlan(c: Config, y: Layout, p: Plan, asid: Asid, v: Word, mode: Mode)
    requires Holds(c, y, p)
    ensures Reference(c, asid, v, mode) == Planned(p, v, mode)
    ensures AtTop(c, asid, v) <==> PlannedLast(p, v)
  {
    assert c.enabled && |p.roles| == 16;
    if p.area(v / SECTION).Paged? { WalkPaged(c, y, p, asid, v); } else { WalkWhole(c, y, p, asid, v); }
    hide Holds, Walk;
    if Walk(c, asid, v).Mapped? {
      TargetPlace(c, asid, v);
      hide Target;
      LastAtTop(c, asid, v);
    }
  }

  /** The page or section of an address ends at 2^32 exactly when its number is the last one. */
  lemma LastAtTop(c: Config, asid: Asid, v: Word)
    requires Walk(c, asid, v).Mapped?
    ensures var e := Walk(c, asid, v).entry; EndsAtTop(e) <==> v / e.size == TOP / e.size - 1
    ensures var e := Walk(c, asid, v).entry; (e.bits == 12 && e.size == PAGE) || (e.bits == 20 && e.size == SECTION)
  {
    hide Walk;
    WalkShape(c, asid, v);
    var e := Walk(c, asid, v).entry;
    if e.bits == 12 { LastStart(v, PAGE, 0x10_0000); } else { LastStart(v, SECTION, 0x1000); }
  }

  lemma LastStart(v: Word, size: nat, count: nat)
    requires size > 0 && size * count == TOP
    ensures v / size * size % TOP == v / size * size && (v / size * size + size == TOP <==> v / size == count - 1)
  {
    var q := v / size;
    assert v == q * size + v % size;
    if q < count - 1 { Monotone(q + 2, count, size); }
  }

  /** With a coherent TLB the same holds of every translation, but for the last page or megabyte. */
  lemma TranslatesPlan(t: Table, w: World, asid: Asid, y: Layout, p: Plan, v: Word, mode: Mode)
    requires Coherent(t, w) && Disjoint(t) && |t| > 0 && Holds(w(asid), y, p)
    ensures Translate(t, w(asid), asid, v, mode).1 == if PlannedLast(p, v) then Crash else Planned(p, v, mode)
  {
    AnswersPlan(w(asid), y, p, asid, v, mode);
    TranslateKeeps(t, w, asid, v, mode);
    hide Coherent, Disjoint, Translate, Planned, PlannedLast, Reference, AtTop, Walk;
  }

  /** And in every run, after any accesses, changes of tables and invalidations. */
  lemma RunsToPlan(states: seq<State>, events: seq<Event>, n: nat, y: Layout, p: Plan)
    requires IsRun(states, events) && n < |events| && events[n].Access? && Holds(states[n].world(events[n].asid), y, p)
    ensures var e := events[n];
            states[n + 1].last == Some(if PlannedLast(p, e.v) then Crash else Planned(p, e.v, e.mode))
  {
    hide Coherent, Disjoint, Translate, Planned, PlannedLast, Holds;
    RunCoherent(states, events, n);
    TranslatesPlan(states[n].table, states[n].world, events[n].asid, y, p, events[n].v, events[n].mode);
  }

  // ---------------------------------------------------------------- building the tables

  /** The tables overlap nowhere; `pool` is the number of the first of 4096 kilobytes for pages. */
  predicate Apart(y: Layout, pool: nat)
  {
    var k := FirstPart(y.split);
    var f, s, l := y.first * (4 * k), y.second * 0x4000, pool * 0x400;
    && pool + 0x1000 <= 0x40_0000
    && (f + 4 * k <= l || l + 0x40_0000 <= f)
    && (y.split > 0 ==> (s + 0x4000 <= l || l + 0x40_0000 <= s + 4 * k) && (f + 4 * k <= s + 4 * k || s + 0x4000 <= f))
  }

  /** The memory with the tables of the plan in it, and something else everywhere else. */
  function Memory(y: Layout, pool: nat, p: Plan, elsewhere: Word -> Word): Word -> Word
    requires Fits(y)
  {
    var k := FirstPart(y.split);
    var f, s, l := y.first * (4 * k), y.second * 0x4000, pool * 0x400;
    (a: Word) =>
      if f <= a < f + 4 * k then AreaWord(p.area((a - f) / 4), y.blocks((a - f) / 4))
      else if s + 4 * k <= a < s + 0x4000 then AreaWord(p.area((a - s) / 4), y.blocks((a - s) / 4))
      else if l <= a < l + 0x40_0000 then LeafWord(p.leaf((a - l) / 4))
      else elsewhere(a)
  }

  lemma AreaBuilt(y: Layout, pool: nat, p: Plan, elsewhere: Word -> Word, m: Megabyte)
    requires Fits(y) && Apart(y, pool)
    ensures AreaAddress(y, m) < TOP && Memory(y, pool, p, elsewhere)(AreaAddress(y, m)) == AreaWord(p.area(m), y.blocks(m))
  {
    AddressesFit(y, m, 0);
    var k := FirstPart(y.split);
    var f, s, a := y.first * (4 * k), y.second * 0x4000, AreaAddress(y, m);
    if m < k {
      Quotient(a - f, 4, m, 0);
    } else {
      assert y.split > 0 && s + 4 * k <= a < s + 0x4000;
      Quotient(a - s, 4, m, 0);
    }
    hide AreaWord, LeafWord, FirstPart;
  }

  lemma LeafBuilt(y: Layout, pool: nat, p: Plan, elsewhere: Word -> Word, n: PageNumber)
    requires Fits(y) && Apart(y, pool) && forall m: Megabyte :: y.blocks(m) == pool + m
    ensures LeafAddress(y, n) < TOP && Memory(y, pool, p, elsewhere)(LeafAddress(y, n)) == LeafWord(p.leaf(n))
  {
    AddressesFit(y, 0, n);
    var l, a := pool * 0x400, LeafAddress(y, n);
    var m: Megabyte := n / 0x100;
    assert y.blocks(m) == pool + m && a == l + 4 * n;
    Quotient(a - l, 4, n, 0);
    assert y.split == 0 ==> FirstPart(y.split) == 0x1000;
    hide AreaWord, LeafWord, FirstPart, LeafAddress;
  }

  /** Every plan can be laid out wherever the tables do not overlap, whatever the unused bits of the registers. */
  lemma Build(y: Layout, pool: nat, p: Plan, elsewhere: Word -> Word, ttbcr: Word, ttbr0: Word, ttbr1: Word)
    requires Fits(y) && Apart(y, pool) && (forall m: Megabyte :: y.blocks(m) == pool + m) && |p.roles| == 16
    requires ttbcr % 8 == y.split && ttbr0 / (4 * FirstPart(y.split)) == y.first && ttbr1 / 0x4000 == y.second
    ensures RolesWord(p.roles) < TOP
    ensures Holds(Config(true, ttbcr, ttbr0, ttbr1, RolesWord(p.roles), Memory(y, pool, p, elsewhere)), y, p)
  {
    assert RolesWord(p.roles) < Power4(16);
    assert Power4(16) == TOP by { assert Power4(8) == 0x1_0000; }
    forall m: Megabyte
      ensures AreaAddress(y, m) < TOP
      ensures Memory(y, pool, p, elsewhere)(AreaAddress(y, m)) == AreaWord(p.area(m), y.blocks(m))
    {
      AreaBuilt(y, pool, p, elsewhere, m);
    }
    forall n: PageNumber
      ensures LeafAddress(y, n) < TOP && Memory(y, pool, p, elsewhere)(LeafAddress(y, n)) == LeafWord(p.leaf(n))
    {
      LeafBuilt(y, pool, p, elsewhere, n);
    }
    hide Memory, AreaWord, LeafWord, AreaAddress, LeafAddress, RolesWord, FirstPart;
  }
}
