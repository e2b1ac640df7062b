/**
 The alternate branch target buffer: it recognises dynamic-linking trampolines,
 remembers the address each one jumps through, and shortcuts calls of a
 trampoline to the destination last written there.  Machine words are integers
 below 2^32, and their sums wrap.
 */
module Abtb {
  import opened Words
  import opened Wrappers

  const NONE: Word := 0xFFFF_FFFF

  /** The last of a trampoline's three instructions is 8 bytes after its start; the counter runs 8 bytes ahead. */
  const LAST := 8
  const AHEAD := 8

  datatype Entry = Entry(tag: Word, finalDest: Word)

  /** The detector state, `via`, `via_to_src`, `abtb_via_entries` and the direct-mapped table. */
  datatype State = State(det: nat, via: set<Word>, viaToSrc: map<Word, Word>, viaEntries: set<Word>, table: seq<Entry>)

  function Hash(x: Word, size: nat): (h: nat)
    requires size > 0
    ensures h < size
  {
    x / 4 % size
  }

  // ---------------------------------------------------------------- detection

  predicate IsBlx(i: Word) { i / 0x800_0000 == 0x1E && i / 0x4000 % 4 == 3 && i / 0x1000 % 2 == 0 }

  predicate IsAddPc(i: Word) { i / 0x1000 == 0xE28FC }

  predicate IsAddIp(i: Word) { i / 0x1000 == 0xE28CC }

  predicate IsLoadPc(i: Word) { i / 0x1000 == 0xE5BCF }

  /** Where a trampoline starts, given the program counter at its last instruction. */
  function Origin(pc: Word): Word { (pc - 16) % TOP }

  /** The address the last instruction of a trampoline loads its target from. */
  function Via(i: Word, ip: Word): Word
  {
    var add := i / 0x80_0000 % 2 == 1;
    var index := i > 24;                     // as coded: a comparison, not the shift that was meant
    var imm := i % 0x1000;
    if !index then ip else if add then (ip + imm) % TOP else (ip - imm) % TOP
  }

  function NextDet(det: nat, i: Word): nat
  {
    if det == 0 && IsBlx(i) then 1
    else if det == 1 then (if IsAddPc(i) then 2 else 0)
    else if det == 2 then (if IsAddIp(i) then 3 else 0)
    else if det == 3 then 0
    else det
  }

  /** This instruction completes a trampoline. */
  predicate Completes(det: nat, i: Word) { det == 3 && IsLoadPc(i) }

  /** Does the run-time check pass that one slot serves one trampoline? */
  predicate MonitorAsserts(s: State, i: Word, ip: Word, pc: Word)
  {
    Completes(s.det, i) ==>
      var a := Via(i, ip);
      if a in s.via then a in s.viaToSrc && s.viaToSrc[a] == Origin(pc) else a !in s.viaToSrc
  }

  function Monitor(s: State, i: Word, ip: Word, pc: Word): State
  {
    var det := NextDet(s.det, i);
    if Completes(s.det, i) && Via(i, ip) !in s.via then
      State(det, s.via + {Via(i, ip)}, s.viaToSrc[Via(i, ip) := Origin(pc)], s.viaEntries, s.table)
    else State(det, s.via, s.viaToSrc, s.viaEntries, s.table)
  }

  // ---------------------------------------------------------------- stores and queries

  function Cleared(table: seq<Entry>): (r: seq<Entry>)
    ensures |r| == |table| && forall h :: 0 <= h < |r| ==> r[h] == Entry(NONE, table[h].finalDest)
  {
    seq(|table|, h requires 0 <= h < |table| => Entry(NONE, table[h].finalDest))
  }

  /** A store to a slot in use drops every shortcut; a store to a known slot installs one. */
  function Snoop(s: State, address: Word, data: Word): State
    requires |s.table| > 0 && (address in s.via ==> address in s.viaToSrc)
  {
    var table := if address in s.viaEntries then Cleared(s.table) else s.table;
    var used := if address in s.viaEntries then {} else s.viaEntries;
    if address !in s.via then State(s.det, s.via, s.viaToSrc, used, table)
    else
      var src := s.viaToSrc[address];
      State(s.det, s.via - {address}, s.viaToSrc - {address}, used + {address},
            table[Hash(src, |table|) := Entry(src, data)])
  }

  /** The value stored in the slot, when there is a shortcut for pc. */
  function Hit(s: State, pc: Word): Option<Word>
    requires |s.table| > 0
  {
    var e := s.table[Hash(pc, |s.table|)];
    if e.tag == pc then Some(e.finalDest) else None
  }

  /** Bit 5 of the program status. */
  predicate Thumb(cpsr: Word) { cpsr / 32 % 2 == 1 }

  function WithThumb(cpsr: Word, b: bool): Word
  {
    if Thumb(cpsr) == b then cpsr else if b then cpsr + 32 else cpsr - 32
  }

  /** Bit 0 of a destination selects Thumb, bits 1 and 0 clear select ARM. */
  function Redirect(dest: Word, cpsr: Word): (Word, Word)
  {
    if dest % 2 == 1 then (dest - 1, WithThumb(cpsr, true))
    else if dest / 2 % 2 == 0 then (dest, WithThumb(cpsr, false))
    else (dest, cpsr)
  }

  function Query(s: State, pc: Word, cpsr: Word): (Word, Word)
    requires |s.table| > 0
  {
    var hit := Hit(s, pc);
    if hit.None? then (NONE, cpsr) else Redirect(hit.value, cpsr)
  }

  // ---------------------------------------------------------------- runs

  datatype Event =
    | Fetch(i: Word, ip: Word, pc: Word)
    | Store(address: Word, data: Word)
    | Ask(pc: Word, cpsr: Word)

  /** What happened: the stores to memory and the trampolines found, as pairs of start and slot. */
  datatype History = History(stored: map<Word, Word>, found: set<(Word, Word)>)

  function Remember(s: State, h: History, e: Event): History
  {
    match e
    case Fetch(i, ip, pc) => if Completes(s.det, i) then h.(found := h.found + {(Origin(pc), Via(i, ip))}) else h
    case Store(address, data) => h.(stored := h.stored[address := data])
    case Ask(_, _) => h
  }

  function Initial(size: nat, junk: seq<Word>): State
    requires |junk| == size
  {
    State(0, {}, map[], {}, seq(size, h requires 0 <= h < size => Entry(NONE, junk[h])))
  }

  /** The shortcut leads from a trampoline found through a slot in use to what was last stored there. */
  ghost predicate Current(s: State, h: History, e: Entry)
  {
    exists a: Word :: a in s.viaEntries && (e.tag, a) in h.found && a in h.stored && h.stored[a] == e.finalDest
  }

  ghost predicate Inv(s: State, h: History)
  {
    && |s.table| > 0
    && s.via == s.viaToSrc.Keys
    && (forall a :: a in s.viaToSrc ==> (s.viaToSrc[a], a) in h.found)
    && (forall k :: 0 <= k < |s.table| && s.table[k].tag != NONE ==> Current(s, h, s.table[k]))
  }

  ghost predicate Allowed(s: State, e: Event)
  {
    e.Fetch? ==> MonitorAsserts(s, e.i, e.ip, e.pc)
  }

  function Apply(s: State, e: Event): State
    requires |s.table| > 0 && s.via == s.viaToSrc.Keys
  {
    match e
    case Fetch(i, ip, pc) => Monitor(s, i, ip, pc)
    case Store(address, data) => Snoop(s, address, data)
    case Ask(_, _) => s
  }

  lemma FetchKeeps(s: State, h: History, i: Word, ip: Word, pc: Word)
    requires Inv(s, h) && Allowed(s, Fetch(i, ip, pc))
    ensures Inv(Apply(s, Fetch(i, ip, pc)), Remember(s, h, Fetch(i, ip, pc)))
  {
    var e := Fetch(i, ip, pc);
    var s', h' := Apply(s, e), Remember(s, h, e);
    hide Completes, Via, Hash;
    forall k | 0 <= k < |s'.table| && s'.table[k].tag != NONE ensures Current(s', h', s'.table[k]) {
      StillCurrent(s, h, s', h', s.table[k]);
    }
    assert s'.via == s'.viaToSrc.Keys;
  }

  /** A shortcut stays current as long as its slot stays watched and is not stored to. */
  lemma StillCurrent(s: State, h: History, s': State, h': History, e: Entry)
    requires Current(s, h, e) && h.found <= h'.found
    requires forall a: Word :: a in s.viaEntries && a in h.stored ==>
               a in s'.viaEntries && a in h'.stored && h'.stored[a] == h.stored[a]
    ensures Current(s', h', e)
  {
    var a: Word :| a in s.viaEntries && (e.tag, a) in h.found && a in h.stored && h.stored[a] == e.finalDest;
    assert a in s'.viaEntries && (e.tag, a) in h'.found;
  }

  lemma StoreKeeps(s: State, h: History, address: Word, data: Word)
    requires Inv(s, h)
    ensures Inv(Apply(s, Store(address, data)), Remember(s, h, Store(address, data)))
  {
    var s', h' := Apply(s, Store(address, data)), Remember(s, h, Store(address, data));
    hide Hash;
    assert s'.via == s'.viaToSrc.Keys;
    forall k | 0 <= k < |s'.table| && s'.table[k].tag != NONE ensures Current(s', h', s'.table[k]) {
      if address in s.via && k == Hash(s.viaToSrc[address], |s.table|) {
        assert address in s'.viaEntries && (s'.table[k].tag, address) in h'.found;
      } else {
        StillCurrent(s, h, s', h', s.table[k]);
      }
    }
  }

  ghost predicate IsRun(states: seq<State>, histories: seq<History>, events: seq<Event>)
  {
    && |states| == |histories| == |events| + 1
    && (exists junk: seq<Word> :: |junk| > 0 && states[0] == Initial(|junk|, junk))
    && histories[0] == History(map[], {})
    && forall k :: 0 <= k < |events| ==>
         && |states[k].table| > 0 && states[k].via == states[k].viaToSrc.Keys
         && Allowed(states[k], events[k])
         && states[k + 1] == Apply(states[k], events[k])
         && histories[k + 1] == Remember(states[k], histories[k], events[k])
  }

  lemma {:induction false} RunInv(states: seq<State>, histories: seq<History>, events: seq<Event>, n: nat)
    requires IsRun(states, histories, events) && n <= |events|
    ensures Inv(states[n], histories[n])
  {
    if n > 0 {
      RunInv(states, histories, events, n - 1);
      match events[n - 1]
      case Fetch(i, ip, pc) => FetchKeeps(states[n - 1], histories[n - 1], i, ip, pc);
      case Store(address, data) => StoreKeeps(states[n - 1], histories[n - 1], address, data);
      case Ask(_, _) =>
    }
  }

  /**
   Over any run a shortcut is never stale: a query that hits gives the value last
   stored in a slot of the trampoline asked for, and that slot is still watched.
   */
  lemma NeverStale(states: seq<State>, histories: seq<History>, events: seq<Event>, n: nat, pc: Word)
    requires IsRun(states, histories, events) && n <= |events| && pc != NONE
    requires |states[n].table| > 0 && Hit(states[n], pc).Some?
    ensures Current(states[n], histories[n], Entry(pc, Hit(states[n], pc).value))
  {
    RunInv(states, histories, events, n);
    assert states[n].table[Hash(pc, |states[n].table|)] == Entry(pc, Hit(states[n], pc).value);
  }

  /** When only one slot was ever found for the trampoline, the hit is that slot's value. */
  lemma HitIsSlotValue(states: seq<State>, histories: seq<History>, events: seq<Event>, n: nat, pc: Word, slot: Word)
    requires IsRun(states, histories, events) && n <= |events| && pc != NONE
    requires |states[n].table| > 0 && Hit(states[n], pc).Some?
    requires forall a: Word :: (pc, a) in histories[n].found ==> a == slot
    ensures slot in histories[n].stored && Hit(states[n], pc).value == histories[n].stored[slot]
  {
    NeverStale(states, histories, events, n, pc);
  }

  // ---------------------------------------------------------------- the same from the events alone

  /** Event k loads the program counter, at the end of a trampoline that starts at `start`, through slot a. */
  predicate SlotAt(events: seq<Event>, k: nat, start: Word, a: Word)
  {
    k < |events| && events[k].Fetch? && IsLoadPc(events[k].i)
    && events[k].pc == (start + LAST + AHEAD) % TOP && a == (events[k].ip + events[k].i % 0x1000) % TOP
  }

  /** Event k stores the value at address a, and nothing is stored there from then until event n. */
  ghost predicate LastStore(events: seq<Event>, k: nat, n: nat, a: Word, value: Word)
  {
    k < n <= |events| && events[k] == Store(a, value)
    && forall j :: k < j < n && events[j].Store? ==> events[j].address != a
  }

  lemma {:induction false} FoundMeans(states: seq<State>, histories: seq<History>, events: seq<Event>, n: nat,
                                      start: Word, a: Word)
    requires IsRun(states, histories, events) && n <= |events| && (start, a) in histories[n].found
    ensures exists k: nat :: k < n && SlotAt(events, k, start, a)
  {
    if n > 0 {
      if (start, a) in histories[n - 1].found {
        FoundMeans(states, histories, events, n - 1, start, a);
      } else {
        var e := events[n - 1];
        assert (start, a) == (Origin(e.pc), Via(e.i, e.ip));
        ViaIsSum(e.i, e.ip);
        OriginIsStart(e.pc, start);
        assert SlotAt(events, n - 1, start, a);
      }
    }
  }

  /** With the counter two instructions ahead, the third instruction sees the start of the trampoline 16 bytes back. */
  lemma OriginIsStart(pc: Word, start: Word)
    ensures Origin(pc) == start <==> pc == (start + LAST + AHEAD) % TOP
  {
  }

  lemma {:induction false} StoredMeans(states: seq<State>, histories: seq<History>, events: seq<Event>, n: nat, a: Word)
    requires IsRun(states, histories, events) && n <= |events| && a in histories[n].stored
    ensures exists k: nat :: LastStore(events, k, n, a, histories[n].stored[a])
  {
    if n > 0 {
      var e, value := events[n - 1], histories[n].stored[a];
      if e.Store? && e.address == a {
        assert LastStore(events, n - 1, n, a, value);
      } else {
        StoredMeans(states, histories, events, n - 1, a);
        var k: nat :| LastStore(events, k, n - 1, a, value);
        assert LastStore(events, k, n, a, value);
      }
    }
  }

  /**
   A query that hits gives what the last store put in a slot through which a trampoline
   that starts at the address asked for has been seen to load the program counter.
   */
  lemma HitFromEvents(states: seq<State>, histories: seq<History>, events: seq<Event>, n: nat, pc: Word)
    requires IsRun(states, histories, events) && n <= |events| && pc != NONE
    requires |states[n].table| > 0 && Hit(states[n], pc).Some?
    ensures exists k: nat, j: nat, a: Word ::
              k < n && SlotAt(events, k, pc, a) && LastStore(events, j, n, a, Hit(states[n], pc).value)
  {
    hide IsRun, Hit, Hash, SlotAt, LastStore;
    NeverStale(states, histories, events, n, pc);
    SizesMatch(states, histories, events);
    var h := histories[n];
    var a: Word :| (pc, a) in h.found && a in h.stored && h.stored[a] == Hit(states[n], pc).value;
    FoundMeans(states, histories, events, n, pc, a);
    StoredMeans(states, histories, events, n, a);
    var k: nat :| k < n && SlotAt(events, k, pc, a);
    var j: nat :| LastStore(events, j, n, a, Hit(states[n], pc).value);
  }

  lemma SizesMatch(states: seq<State>, histories: seq<History>, events: seq<Event>)
    requires IsRun(states, histories, events)
    ensures |states| == |histories| == |events| + 1
  {
  }

  /** The address whose tag marks an unused entry is the one address without the guarantee: it hits at once. */
  lemma ReservedAddressHits(junk: seq<Word>, pc: Word)
    requires |junk| > 0
    ensures Hit(Initial(|junk|, junk), pc).Some? <==> pc == NONE
  {
  }

  /** A hit is never mistaken for a miss. */
  lemma HitOrMiss(s: State, pc: Word, cpsr: Word)
    requires |s.table| > 0
    ensures Query(s, pc, cpsr).0 == NONE <==> Hit(s, pc).None?
  {
    hide Hit;
    if Hit(s, pc).Some? { RedirectBits(Hit(s, pc).value, cpsr); }
  }

  /**
   A redirected call goes to an even address; an odd destination selects Thumb,
   an aligned one ARM, and no other bit of the status changes.
   */
  lemma RedirectBits(dest: Word, cpsr: Word)
    ensures var (target, status) := Redirect(dest, cpsr);
            && target != NONE && target % 2 == 0 && target / 2 == dest / 2
            && Thumb(status) == (dest % 2 == 1 || (dest % 4 == 2 && Thumb(cpsr)))
            && status % 32 == cpsr % 32 && status / 64 == cpsr / 64
  {
    ThumbBit(cpsr, true);
    ThumbBit(cpsr, false);
    hide Thumb, WithThumb;
  }

  lemma ThumbBit(cpsr: Word, b: bool)
    ensures var r := WithThumb(cpsr, b); Thumb(r) == b && r % 32 == cpsr % 32 && r / 64 == cpsr / 64
  {
  }

  /** A trampoline is reported exactly when its four instructions arrive in a row at a detector at rest. */
  lemma DetectsExactly(det: nat, a: Word, b: Word, c: Word, d: Word)
    requires det == 0
    ensures Completes(NextDet(NextDet(NextDet(det, a), b), c), d) <==> IsBlx(a) && IsAddPc(b) && IsAddIp(c) && IsLoadPc(d)
  {
    if IsAddPc(b) { NotBlx(b); }
    NotBlx(c);
  }

  /** The instructions of a trampoline are told apart by their top five bits. */
  lemma NotBlx(i: Word)
    ensures IsAddPc(i) || IsAddIp(i) || IsLoadPc(i) ==> !IsBlx(i)
  {
  }

  /** For the one instruction that gets here, the comparison that stands for a shift does no harm. */
  lemma ViaIsSum(i: Word, ip: Word)
    requires IsLoadPc(i)
    ensures Via(i, ip) == (ip + i % 0x1000) % TOP
  {
  }

  // ---------------------------------------------------------------- the buffer in place

  class Buffer {
    var det: nat
    var via: set<Word>
    var viaToSrc: map<Word, Word>
    var viaEntries: set<Word>
    const table: array<Entry>

    ghost function Value(): State
      reads this, table
    {
      State(det, via, viaToSrc, viaEntries, table[..])
    }

    constructor (size: nat)
      requires size > 0
      ensures fresh(table) && exists junk: seq<Word> :: |junk| == size && Value() == Initial(size, junk)
    {
      det, via, viaToSrc, viaEntries := 0, {}, map[], {};
      table := new Entry[size](_ => Entry(NONE, 0));
      new;
      ghost var junk := seq(size, _ => 0 as Word);
      assert table[..] == Initial(size, junk).table;
    }

    method Ins32Monitor(i: Word, ip: Word, pc: Word) returns (ok: bool)
      modifies this
      ensures ok <==> MonitorAsserts(old(Value()), i, ip, pc)
      ensures ok ==> Value() == Monitor(old(Value()), i, ip, pc)
    {
      ok := true;
      if det == 0 && IsBlx(i) {
        det := 1;
      } else if det == 1 {
        det := if IsAddPc(i) then 2 else 0;
      } else if det == 2 {
        det := if IsAddIp(i) then 3 else 0;
      } else if det == 3 {
        if IsLoadPc(i) {
          var address := Via(i, ip);
          if address !in via {
            via := via + {address};
            ok := address !in viaToSrc;
            viaToSrc := viaToSrc[address := Origin(pc)];
          } else {
            ok := address in viaToSrc && viaToSrc[address] == Origin(pc);
          }
        }
        det := 0;
      }
    }

    method InvalidateAll()
      modifies table
      ensures table[..] == Cleared(old(table[..]))
    {
      for k := 0 to table.Length
        invariant forall j :: 0 <= j < table.Length ==>
          table[j] == if j < k then Entry(NONE, old(table[j]).finalDest) else old(table[j])
      {
        table[k] := Entry(NONE, table[k].finalDest);
      }
    }

    method WrittenAddressSnoop(address: Word, data: Word)
      requires table.Length > 0 && via == viaToSrc.Keys
      modifies this, table
      ensures Value() == Snoop(old(Value()), address, data)
    {
      if address in viaEntries {
        InvalidateAll();
        viaEntries := {};
      }
      if address in via {
        var src := viaToSrc[address];
        viaEntries := viaEntries + {address};
        table[Hash(src, table.Length)] := Entry(src, data);
        via := via - {address};
        viaToSrc := viaToSrc - {address};
      }
    }

    method Ask(pc: Word, cpsr: Word) returns (rc: Word, cpsr': Word)
      requires table.Length > 0
      ensures (rc, cpsr') == Query(Value(), pc, cpsr)
    {
      hide Hash;
      rc, cpsr' := NONE, cpsr;
      var h := Hash(pc, table.Length);
      if table[h].tag == pc {
        var finalDest := table[h].finalDest;
        if finalDest % 2 == 1 {
          cpsr' := WithThumb(cpsr, true);
          finalDest := finalDest - 1;
        } else if finalDest / 2 % 2 == 0 {
          cpsr' := WithThumb(cpsr, false);
        }
        rc := finalDest;
      }
    }
  }
}
