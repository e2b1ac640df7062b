/**
 Address translation of the virtual memory unit: the lazily built page table
 plus the sequential allocator of physical pages.
 */
module VmUnit {
  import opened Arithmetic
  import opened Wrappers
  import opened RadixTable

  /** The configuration; nodeShift is the position of the node number in a physical address. */
  datatype Setup = Setup(ls: seq<Level>, vfnBits: nat, pageBits: nat, pageSize: nat, physPages: nat, nodeShift: nat)

  /** `physmem` lists the entries loaded, and `lastPage` is the next physical page. */
  datatype State = State(memory: Memory, physmem: seq<nat>, lastPage: nat)

  /** A failed assertion of the allocator ends the program. */
  datatype Result = Ok(state: State, address: int) | OutOfPages

  function Vfn(c: Setup, v: nat): nat { v / Pow2(c.pageBits) % Pow2(c.vfnBits) }

  function Offset(c: Setup, v: nat): nat { v % Pow2(c.pageBits) }

  /** The node number sits above the physical address within the node. */
  function Address(c: Setup, e: Pte, v: nat): int
  {
    e.pfn * c.pageSize + Offset(c, v) + e.node * Pow2(c.nodeShift)
  }

  function WithPte(m: Memory, p: nat, e: Pte): Memory
    requires p < |m.ptes|
  {
    m.(ptes := m.ptes[p := e])
  }

  function Initial(c: Setup): State
    requires |c.ls| > 0
  {
    State(Memory([NewTable(c.ls, 0)], []), [], 0)
  }

  ghost predicate TableOk(c: Setup, s: State)
  {
    && LevelsOk(c.ls, c.vfnBits)
    && Shape(c.ls, s.memory) && |s.memory.tables| > 0 && s.memory.tables[0].level == 0
    && exists bases: seq<nat> :: Rooted(c, s, bases)
  }

  ghost predicate Rooted(c: Setup, s: State, bases: seq<nat>)
    requires Shape(c.ls, s.memory) && |s.memory.tables| > 0
  {
    Based(c.ls, s.memory, bases) && bases[0] == 0
  }

  /** The loaded entries are the valid ones, each listed once, on pages below lastPage that no other entry has. */
  ghost predicate PagesOk(c: Setup, s: State)
  {
    && s.lastPage <= c.physPages
    && (forall k :: 0 <= k < |s.physmem| ==> s.physmem[k] < |s.memory.ptes|)
    && (forall p :: 0 <= p < |s.memory.ptes| ==> (s.memory.ptes[p].valid <==> p in s.physmem))
    && (forall p :: 0 <= p < |s.memory.ptes| && s.memory.ptes[p].valid ==>
          0 <= s.memory.ptes[p].pfn < s.lastPage && s.memory.ptes[p].node >= 0)
    && (forall p, q :: 0 <= p < q < |s.memory.ptes| && s.memory.ptes[p].valid && s.memory.ptes[q].valid ==>
          s.memory.ptes[p].pfn != s.memory.ptes[q].pfn)
    && (forall j, k :: 0 <= j < k < |s.physmem| ==> s.physmem[j] != s.physmem[k])
  }

  ghost predicate Inv(c: Setup, s: State)
  {
    TableOk(c, s) && PagesOk(c, s)
  }

  /** The entry for a frame number in the tables, if it has ever been looked up. */
  ghost function Entry(c: Setup, s: State, vfn: nat): Option<nat>
    requires TableOk(c, s)
  {
    Find(c.ls, s.memory, vfn, 0)
  }

  /** Some loaded entry sits on page pfn. */
  predicate Loaded(s: State, pfn: int)
  {
    exists k :: 0 <= k < |s.physmem| && s.physmem[k] < |s.memory.ptes| && s.memory.ptes[s.physmem[k]].pfn == pfn
  }

  /** The fault handler: the next page, unless the pages are used up or the page is taken. */
  function Fault(c: Setup, s: State, p: nat, node: nat): Option<State>
    requires p < |s.memory.ptes|
  {
    var phn := s.lastPage;
    var e := s.memory.ptes[p];
    if !(phn <= c.physPages && phn < c.physPages) || e.valid || Loaded(s, phn) then None
    else Some(State(WithPte(s.memory, p, Pte(e.vfn, phn, node, true, false)), s.physmem + [p], phn + 1))
  }

  /** The table part of a translation: the entry for v, created if need be. */
  function LookUp(c: Setup, s: State, v: nat): (State, nat)
    requires TableOk(c, s)
  {
    var (m, p) := Walk(c.ls, s.memory, Vfn(c, v), Vfn(c, v), 0);
    (State(m, s.physmem, s.lastPage), p)
  }

  /** A page is loaded on the first access; then the frame, the offset and the node make the address. */
  function Translate(c: Setup, s: State, v: nat, node: nat): Result
    requires TableOk(c, s)
  {
    var (s1, p) := LookUp(c, s, v);
    if p >= |s1.memory.ptes| then OutOfPages
    else if s1.memory.ptes[p].valid then Ok(s1, Address(c, s1.memory.ptes[p], v))
    else
      var r := Fault(c, s1, p, node);
      if r.None? then OutOfPages
      else Ok(r.value, Address(c, Pte(s1.memory.ptes[p].vfn, s1.lastPage, node, true, false), v))
  }

  /** Gives the physical page of an entry back, if some entry has it. */
  function Evict(s: State, k: nat): State
    requires k < |s.physmem| && s.physmem[k] < |s.memory.ptes|
  {
    var p := s.physmem[k];
    var e := s.memory.ptes[p];
    State(WithPte(s.memory, p, Pte(e.vfn, -1, e.node, false, false)), s.physmem[..k] + s.physmem[k + 1..], s.lastPage)
  }

  // ---------------------------------------------------------------- invariant

  lemma InitialInv(c: Setup)
    requires LevelsOk(c.ls, c.vfnBits)
    ensures Inv(c, Initial(c))
  {
    assert Rooted(c, Initial(c), [0]);
  }

  lemma VfnFits(c: Setup, v: nat)
    ensures Vfn(c, v) < Pow2(c.vfnBits)
  {
  }

  /** A lookup arrives at an entry for the frame number, and keeps everything that was there. */
  lemma LookUpKeeps(c: Setup, s: State, v: nat)
    requires Inv(c, s)
    ensures var (s1, p) := LookUp(c, s, v);
            && Inv(c, s1) && Extends(s.memory, s1.memory) && p < |s1.memory.ptes|
            && Entry(c, s1, Vfn(c, v)) == Some(p) && s1.memory.ptes[p].vfn == Vfn(c, v)
  {
    var vfn := Vfn(c, v);
    var (s1, p) := LookUp(c, s, v);
    VfnFits(c, v);
    WalkFinds(c.ls, s.memory, vfn, vfn, 0);
    var bases: seq<nat> :| Rooted(c, s, bases);
    var bases' := WalkBased(c.ls, s.memory, bases, vfn, vfn, 0);
    assert Rooted(c, s1, bases');
    FindVfn(c.ls, s1.memory, bases', vfn, 0);
    assert PagesOk(c, s1) by { hide TableOk; }
  }

  /** Rewriting the page of an entry leaves the tables alone. */
  lemma RewriteKeeps(c: Setup, s: State, s': State, p: nat, e: Pte)
    requires TableOk(c, s) && p < |s.memory.ptes| && e.vfn == s.memory.ptes[p].vfn
    requires s'.memory == WithPte(s.memory, p, e)
    ensures TableOk(c, s') && Keeps(s.memory, s'.memory)
  {
    assert forall t, i :: Child(s'.memory, t, i) == Child(s.memory, t, i);
    assert Shape(c.ls, s'.memory);
    var bases: seq<nat> :| Rooted(c, s, bases);
    assert Rooted(c, s', bases);
  }

  lemma NotLoaded(c: Setup, s: State)
    requires PagesOk(c, s)
    ensures !Loaded(s, s.lastPage)
  {
    forall k | 0 <= k < |s.physmem| ensures s.memory.ptes[s.physmem[k]].pfn != s.lastPage {
      assert s.physmem[k] in s.physmem;
    }
  }

  lemma FaultKeeps(c: Setup, s: State, p: nat, node: nat)
    requires Inv(c, s) && p < |s.memory.ptes| && !s.memory.ptes[p].valid
    ensures Fault(c, s, p, node).Some? <==> s.lastPage < c.physPages
    ensures Fault(c, s, p, node).Some? ==>
              Inv(c, Fault(c, s, p, node).value) && Keeps(s.memory, Fault(c, s, p, node).value.memory)
  {
    NotLoaded(c, s);
    var r := Fault(c, s, p, node);
    if r.Some? {
      RewriteKeeps(c, s, r.value, p, r.value.memory.ptes[p]);
      assert PagesOk(c, r.value) by { hide TableOk; }
    }
  }

  lemma EvictKeeps(c: Setup, s: State, k: nat)
    requires Inv(c, s) && k < |s.physmem|
    ensures s.physmem[k] < |s.memory.ptes| && Inv(c, Evict(s, k)) && Keeps(s.memory, Evict(s, k).memory)
  {
    var p, s' := s.physmem[k], Evict(s, k);
    RewriteKeeps(c, s, s', p, s'.memory.ptes[p]);
    assert PagesOk(c, s') by {
      hide TableOk;
      forall q ensures q in s'.physmem <==> q in s.physmem && q != p { Without(s.physmem, k, q); }
    }
  }

  lemma Without(xs: seq<nat>, k: nat, q: nat)
    requires k < |xs| && forall i, j :: 0 <= i < j < |xs| ==> xs[i] != xs[j]
    ensures q in xs[..k] + xs[k + 1..] <==> q in xs && q != xs[k]
  {
    var r := xs[..k] + xs[k + 1..];
    if q in xs && q != xs[k] {
      var i :| 0 <= i < |xs| && xs[i] == q;
      assert r[if i < k then i else i - 1] == q;
    }
  }

  // ---------------------------------------------------------------- what a translation does

  /** v has a page. */
  ghost predicate Mapped(c: Setup, s: State, v: nat)
    requires TableOk(c, s)
  {
    var e := Entry(c, s, Vfn(c, v));
    e.Some? && e.value < |s.memory.ptes| && s.memory.ptes[e.value].valid
  }

  /** The physical address of a mapped v. */
  ghost function Placed(c: Setup, s: State, v: nat): int
    requires TableOk(c, s) && Mapped(c, s, v)
  {
    Address(c, s.memory.ptes[Entry(c, s, Vfn(c, v)).value], v)
  }

  lemma FaultPlaces(c: Setup, s: State, p: nat, node: nat, u: nat)
    requires Inv(c, s) && p < |s.memory.ptes| && !s.memory.ptes[p].valid && Fault(c, s, p, node).Some?
    requires Entry(c, s, Vfn(c, u)).Some?
    ensures var s' := Fault(c, s, p, node).value;
            && TableOk(c, s') && Entry(c, s', Vfn(c, u)) == Entry(c, s, Vfn(c, u))
            && (Mapped(c, s, u) ==> Mapped(c, s', u) && Placed(c, s', u) == Placed(c, s, u))
  {
    FaultKeeps(c, s, p, node);
    FindExtends(c.ls, s.memory, Fault(c, s, p, node).value.memory, Vfn(c, u), 0);
  }

  lemma LookUpPlaces(c: Setup, s: State, v: nat, u: nat)
    requires Inv(c, s)
    ensures var s1 := LookUp(c, s, v).0;
            && TableOk(c, s1) && (Mapped(c, s, u) ==> Mapped(c, s1, u) && Placed(c, s1, u) == Placed(c, s, u))
    ensures Mapped(c, LookUp(c, s, v).0, v) ==> Mapped(c, s, v)
  {
    LookUpKeeps(c, s, v);
    WalkFinds(c.ls, s.memory, Vfn(c, v), Vfn(c, v), 0);
    var s1 := LookUp(c, s, v).0;
    if Entry(c, s, Vfn(c, u)).Some? { FindExtends(c.ls, s.memory, s1.memory, Vfn(c, u), 0); }
    if Entry(c, s, Vfn(c, v)).Some? { FindExtends(c.ls, s.memory, s1.memory, Vfn(c, v), 0); }
  }

  /**
   A translation succeeds unless a page is needed and none is left.  It maps the
   address, keeps every mapping there was, and returns where the address is placed.
   */
  lemma TranslateKeeps(c: Setup, s: State, v: nat, node: nat)
    requires Inv(c, s)
    ensures Translate(c, s, v, node).OutOfPages? <==> !Mapped(c, s, v) && s.lastPage == c.physPages
    ensures Translate(c, s, v, node).Ok? ==>
              var s' := Translate(c, s, v, node).state;
              && Inv(c, s') && Mapped(c, s', v) && Translate(c, s, v, node).address == Placed(c, s', v)
              && forall u :: Mapped(c, s, u) ==> Mapped(c, s', u) && Placed(c, s', u) == Placed(c, s, u)
  {
    LookUpKeeps(c, s, v);
    var (s1, p) := LookUp(c, s, v);
    LookUpPlaces(c, s, v, v);
    if !s1.memory.ptes[p].valid {
      FaultKeeps(c, s1, p, node);
      if Fault(c, s1, p, node).Some? { FaultPlaces(c, s1, p, node, v); }
    }
    forall u | Mapped(c, s, u) && Translate(c, s, v, node).Ok?
      ensures Mapped(c, Translate(c, s, v, node).state, u)
              && Placed(c, Translate(c, s, v, node).state, u) == Placed(c, s, u)
    {
      LookUpPlaces(c, s, v, u);
      if !s1.memory.ptes[p].valid { FaultPlaces(c, s1, p, node, u); }
    }
  }

  // ---------------------------------------------------------------- distinct addresses stay distinct

  lemma WithinNode(c: Setup, e: Pte, v: nat)
    requires c.pageSize == Pow2(c.pageBits) && c.physPages * c.pageSize <= Pow2(c.nodeShift)
    requires 0 <= e.pfn < c.physPages
    ensures 0 <= e.pfn * c.pageSize + Offset(c, v) < Pow2(c.nodeShift)
  {
    Monotone(e.pfn + 1, c.physPages, c.pageSize);
    assert (e.pfn + 1) * c.pageSize == e.pfn * c.pageSize + c.pageSize;
  }

  /** Entries on different pages or of different nodes never give the same address. */
  lemma AddressParts(c: Setup, e: Pte, v: nat, f: Pte, u: nat)
    requires c.pageSize == Pow2(c.pageBits) && c.physPages * c.pageSize <= Pow2(c.nodeShift)
    requires 0 <= e.pfn < c.physPages && 0 <= f.pfn < c.physPages
    requires Address(c, e, v) == Address(c, f, u)
    ensures e.node == f.node && e.pfn == f.pfn && Offset(c, v) == Offset(c, u)
  {
    WithinNode(c, e, v);
    WithinNode(c, f, u);
    Euclid(e.node, f.node, Pow2(c.nodeShift), e.pfn * c.pageSize + Offset(c, v), f.pfn * c.pageSize + Offset(c, u));
    Euclid(e.pfn, f.pfn, c.pageSize, Offset(c, v), Offset(c, u));
  }

  lemma AddressSplit(c: Setup, v: nat)
    requires v < Pow2(c.vfnBits) * Pow2(c.pageBits)
    ensures v == Vfn(c, v) * Pow2(c.pageBits) + Offset(c, v)
  {
    SplitNumber(v, Pow2(c.vfnBits), Pow2(c.pageBits));
  }

  /**
   Two mapped addresses of the address space share a physical address only if
   they are the same, when pages are powers of two and the node bits lie above them.
   */
  lemma Injective(c: Setup, s: State, u: nat, v: nat)
    requires Inv(c, s) && Mapped(c, s, u) && Mapped(c, s, v)
    requires c.pageSize == Pow2(c.pageBits) && c.physPages * c.pageSize <= Pow2(c.nodeShift)
    requires u < Pow2(c.vfnBits) * Pow2(c.pageBits) && v < Pow2(c.vfnBits) * Pow2(c.pageBits)
    requires Placed(c, s, u) == Placed(c, s, v)
    ensures u == v
  {
    var p, q := Entry(c, s, Vfn(c, u)).value, Entry(c, s, Vfn(c, v)).value;
    AddressParts(c, s.memory.ptes[p], u, s.memory.ptes[q], v);
    assert p == q;
    var bases: seq<nat> :| Rooted(c, s, bases);
    VfnFits(c, u);
    VfnFits(c, v);
    FindVfn(c.ls, s.memory, bases, Vfn(c, u), 0);
    FindVfn(c.ls, s.memory, bases, Vfn(c, v), 0);
    AddressSplit(c, u);
    AddressSplit(c, v);
  }

  /** Where the page size is not a power of two, neighbouring pages overlap. */
  lemma PagesOverlap(c: Setup, e: Pte, f: Pte)
    requires 0 < c.pageSize < Pow2(c.pageBits) && e.node == f.node && f.pfn == e.pfn + 1
    ensures exists u: nat, v: nat :: Offset(c, u) != Offset(c, v) && Address(c, e, u) == Address(c, f, v)
  {
    var u, v := c.pageSize, 0;
    assert Offset(c, v) == 0 && Offset(c, u) == c.pageSize by { Keep(u, Pow2(c.pageBits)); }
    assert f.pfn * c.pageSize == e.pfn * c.pageSize + c.pageSize;
  }

  // ---------------------------------------------------------------- runs

  datatype Access = Access(v: nat, node: nat)

  /** The states of a run of translations, all of them successful. */
  ghost predicate IsRun(c: Setup, states: seq<State>, accesses: seq<Access>)
  {
    && LevelsOk(c.ls, c.vfnBits)
    && |states| == |accesses| + 1 && states[0] == Initial(c)
    && forall i :: 0 <= i < |accesses| ==>
         && TableOk(c, states[i])
         && Translate(c, states[i], accesses[i].v, accesses[i].node).Ok?
         && states[i + 1] == Translate(c, states[i], accesses[i].v, accesses[i].node).state
  }

  lemma {:induction false} RunInv(c: Setup, states: seq<State>, accesses: seq<Access>, n: nat)
    requires IsRun(c, states, accesses) && n <= |accesses|
    ensures Inv(c, states[n])
  {
    if n == 0 { InitialInv(c); }
    else {
      RunInv(c, states, accesses, n - 1);
      TranslateKeeps(c, states[n - 1], accesses[n - 1].v, accesses[n - 1].node);
    }
  }

  /** Over any run an address keeps the physical address it was first given, whichever node asks. */
  lemma {:induction false} Stable(c: Setup, states: seq<State>, accesses: seq<Access>, m: nat, n: nat)
    requires IsRun(c, states, accesses) && m < n <= |accesses|
    ensures TableOk(c, states[n]) && Mapped(c, states[n], accesses[m].v)
    ensures Translate(c, states[m], accesses[m].v, accesses[m].node).address == Placed(c, states[n], accesses[m].v)
    decreases n
  {
    hide Translate, Placed, Mapped, Inv;
    RunInv(c, states, accesses, n - 1);
    TranslateKeeps(c, states[n - 1], accesses[n - 1].v, accesses[n - 1].node);
    InvTables(c, states[n]);
    if m < n - 1 { Stable(c, states, accesses, m, n - 1); }
  }

  lemma InvTables(c: Setup, s: State)
    requires Inv(c, s)
    ensures TableOk(c, s)
  {
  }

  // ---------------------------------------------------------------- first touch

  /** Access n is the first to its page. */
  ghost predicate IsFirst(c: Setup, accesses: seq<Access>, n: nat)
    requires n < |accesses|
  {
    forall i :: 0 <= i < n ==> Vfn(c, accesses[i].v) != Vfn(c, accesses[n].v)
  }

  /** The numbers of the accesses before n that were the first to their pages, in order. */
  ghost function FirstTouches(c: Setup, accesses: seq<Access>, n: nat): seq<nat>
    requires n <= |accesses|
  {
    if n == 0 then []
    else if IsFirst(c, accesses, n - 1) then FirstTouches(c, accesses, n - 1) + [n - 1]
    else FirstTouches(c, accesses, n - 1)
  }

  /** Number j of the first touches ts is one of the page of v. */
  predicate TouchOf(c: Setup, accesses: seq<Access>, ts: seq<nat>, j: nat, v: nat)
  {
    j < |ts| && ts[j] < |accesses| && Vfn(c, accesses[ts[j]].v) == Vfn(c, v)
  }

  /** Every access so far is to a page that one of the first touches was to. */
  lemma {:induction false} TouchIndex(c: Setup, accesses: seq<Access>, n: nat, i: nat) returns (j: nat)
    requires i < n <= |accesses|
    ensures TouchOf(c, accesses, FirstTouches(c, accesses, n), j, accesses[i].v)
  {
    hide Vfn;
    if i < n - 1 {
      j := TouchIndex(c, accesses, n - 1, i);
    } else if IsFirst(c, accesses, n - 1) {
      j := |FirstTouches(c, accesses, n)| - 1;
    } else {
      var k :| 0 <= k < n - 1 && Vfn(c, accesses[k].v) == Vfn(c, accesses[n - 1].v);
      j := TouchIndex(c, accesses, n - 1, k);
    }
  }

  lemma {:induction false} TouchesFirst(c: Setup, accesses: seq<Access>, n: nat)
    requires n <= |accesses|
    ensures forall j :: 0 <= j < |FirstTouches(c, accesses, n)| ==>
              FirstTouches(c, accesses, n)[j] < n && IsFirst(c, accesses, FirstTouches(c, accesses, n)[j])
  {
    hide IsFirst;
    if n > 0 { TouchesFirst(c, accesses, n - 1); }
  }

  /** The address of v on page j of a node. */
  function OnPage(c: Setup, j: nat, node: nat, v: nat): nat
  {
    j * c.pageSize + v % Pow2(c.pageBits) + node * Pow2(c.nodeShift)
  }

  /** An address of a page that had none gets the next page, at the node that asks, and nothing else is mapped. */
  lemma TranslatePlaces(c: Setup, s: State, v: nat, node: nat)
    requires Inv(c, s) && Translate(c, s, v, node).Ok?
    ensures var s' := Translate(c, s, v, node).state;
            && Inv(c, s') && Mapped(c, s', v) && s'.lastPage == s.lastPage + One(!Mapped(c, s, v))
            && (!Mapped(c, s, v) ==> Placed(c, s', v) == OnPage(c, s.lastPage, node, v))
  {
    TranslateKeeps(c, s, v, node);
    LookUpKeeps(c, s, v);
    LookUpPlaces(c, s, v, v);
    var (s1, p) := LookUp(c, s, v);
    if !s1.memory.ptes[p].valid {
      FaultKeeps(c, s1, p, node);
      FaultPlaces(c, s1, p, node, v);
    }
    hide Inv, TableOk;
  }

  /** Addresses of one page are placed on one page. */
  lemma SamePage(c: Setup, s: State, u: nat, v: nat)
    requires TableOk(c, s) && Vfn(c, u) == Vfn(c, v) && Mapped(c, s, u)
    ensures Mapped(c, s, v) && Placed(c, s, v) - Offset(c, v) == Placed(c, s, u) - Offset(c, u)
  {
  }

  /** Each page touched so far sits where its first touch has put it, and the pages are used in order. */
  ghost predicate TouchInv(c: Setup, s: State, accesses: seq<Access>, ts: seq<nat>)
    requires TableOk(c, s)
  {
    && s.lastPage == |ts|
    && forall j :: 0 <= j < |ts| && ts[j] < |accesses| ==>
         Mapped(c, s, accesses[ts[j]].v)
         && Placed(c, s, accesses[ts[j]].v) == OnPage(c, j, accesses[ts[j]].node, accesses[ts[j]].v)
  }

  /** Only pages that have been touched are loaded. */
  ghost predicate OnlyTouched(c: Setup, s: State, accesses: seq<Access>, n: nat)
    requires n <= |accesses|
  {
    forall p :: 0 <= p < |s.memory.ptes| && s.memory.ptes[p].valid ==>
      exists i :: 0 <= i < n && Vfn(c, accesses[i].v) == s.memory.ptes[p].vfn
  }

  /** A translation loads no page but the one asked for. */
  lemma LoadsOne(c: Setup, s: State, v: nat, node: nat, p: nat)
    requires Inv(c, s) && Translate(c, s, v, node).Ok? && p < |Translate(c, s, v, node).state.memory.ptes|
    requires Translate(c, s, v, node).state.memory.ptes[p].valid
    ensures var e := Translate(c, s, v, node).state.memory.ptes[p];
            e.vfn == Vfn(c, v) || (p < |s.memory.ptes| && s.memory.ptes[p].valid && s.memory.ptes[p].vfn == e.vfn)
  {
    LookUpKeeps(c, s, v);
    hide Inv, TableOk, Vfn;
  }

  lemma MappedTouched(c: Setup, s: State, accesses: seq<Access>, n: nat, v: nat)
    requires Inv(c, s) && n <= |accesses| && OnlyTouched(c, s, accesses, n) && Mapped(c, s, v)
    ensures exists i :: 0 <= i < n && Vfn(c, accesses[i].v) == Vfn(c, v)
  {
    var bases: seq<nat> :| Rooted(c, s, bases);
    VfnFits(c, v);
    FindVfn(c.ls, s.memory, bases, Vfn(c, v), 0);
    hide Vfn, TableOk;
  }

  lemma OnlyTouchedNext(c: Setup, s: State, accesses: seq<Access>, n: nat)
    requires Inv(c, s) && n < |accesses| && OnlyTouched(c, s, accesses, n)
    requires Translate(c, s, accesses[n].v, accesses[n].node).Ok?
    ensures OnlyTouched(c, Translate(c, s, accesses[n].v, accesses[n].node).state, accesses, n + 1)
  {
    var s' := Translate(c, s, accesses[n].v, accesses[n].node).state;
    hide Vfn, Translate, Inv;
    forall p | 0 <= p < |s'.memory.ptes| && s'.memory.ptes[p].valid
      ensures exists i :: 0 <= i < n + 1 && Vfn(c, accesses[i].v) == s'.memory.ptes[p].vfn
    {
      LoadsOne(c, s, accesses[n].v, accesses[n].node, p);
      if s'.memory.ptes[p].vfn != Vfn(c, accesses[n].v) {
        var i :| 0 <= i < n && Vfn(c, accesses[i].v) == s.memory.ptes[p].vfn;
      }
    }
  }

  /** An access finds its page mapped exactly when it is not the first to it. */
  lemma FirstUnmapped(c: Setup, s: State, accesses: seq<Access>, n: nat)
    requires Inv(c, s) && n < |accesses| && OnlyTouched(c, s, accesses, n)
    requires TouchInv(c, s, accesses, FirstTouches(c, accesses, n))
    ensures Mapped(c, s, accesses[n].v) <==> !IsFirst(c, accesses, n)
  {
    hide Vfn, FirstTouches, Mapped, Placed;
    if Mapped(c, s, accesses[n].v) { MappedTouched(c, s, accesses, n, accesses[n].v); }
    if !IsFirst(c, accesses, n) {
      var i :| 0 <= i < n && Vfn(c, accesses[i].v) == Vfn(c, accesses[n].v);
      var j := TouchIndex(c, accesses, n, i);
      SamePage(c, s, accesses[FirstTouches(c, accesses, n)[j]].v, accesses[n].v);
    }
  }

  /** What a translation keeps, for one address. */
  lemma KeepsPlace(c: Setup, s: State, v: nat, node: nat, u: nat)
    requires Inv(c, s) && Translate(c, s, v, node).Ok? && Mapped(c, s, u)
    ensures var s' := Translate(c, s, v, node).state;
            TableOk(c, s') && Mapped(c, s', u) && Placed(c, s', u) == Placed(c, s, u)
  {
    TranslateKeeps(c, s, v, node);
  }

  lemma TouchNext(c: Setup, s: State, accesses: seq<Access>, n: nat)
    requires Inv(c, s) && n < |accesses| && OnlyTouched(c, s, accesses, n)
    requires TouchInv(c, s, accesses, FirstTouches(c, accesses, n))
    requires Translate(c, s, accesses[n].v, accesses[n].node).Ok?
    ensures var s' := Translate(c, s, accesses[n].v, accesses[n].node).state;
            TableOk(c, s') && TouchInv(c, s', accesses, FirstTouches(c, accesses, n + 1))
  {
    var a, ts, us := accesses[n], FirstTouches(c, accesses, n), FirstTouches(c, accesses, n + 1);
    var s' := Translate(c, s, a.v, a.node).state;
    assert us == if IsFirst(c, accesses, n) then ts + [n] else ts;
    hide Translate, Mapped, Placed, OnPage, IsFirst, Vfn, OnlyTouched, TableOk, FirstTouches, Inv;
    FirstUnmapped(c, s, accesses, n);
    TranslatePlaces(c, s, a.v, a.node);
    InvTables(c, s');
    forall j | 0 <= j < |us| && us[j] < |accesses|
      ensures Mapped(c, s', accesses[us[j]].v)
      ensures Placed(c, s', accesses[us[j]].v) == OnPage(c, j, accesses[us[j]].node, accesses[us[j]].v)
    {
      if j < |ts| { KeepsPlace(c, s, a.v, a.node, accesses[ts[j]].v); }
    }
  }

  lemma {:induction false} RunTouches(c: Setup, states: seq<State>, accesses: seq<Access>, n: nat)
    requires IsRun(c, states, accesses) && n <= |accesses|
    ensures TableOk(c, states[n]) && OnlyTouched(c, states[n], accesses, n)
    ensures TouchInv(c, states[n], accesses, FirstTouches(c, accesses, n))
  {
    hide TouchInv, OnlyTouched, Translate, FirstTouches;
    RunInv(c, states, accesses, n);
    if n == 0 {
      NothingTouched(c, accesses);
    } else {
      RunInv(c, states, accesses, n - 1);
      RunTouches(c, states, accesses, n - 1);
      TouchNext(c, states[n - 1], accesses, n - 1);
      OnlyTouchedNext(c, states[n - 1], accesses, n - 1);
    }
  }

  lemma NothingTouched(c: Setup, accesses: seq<Access>)
    requires LevelsOk(c.ls, c.vfnBits) && TableOk(c, Initial(c))
    ensures OnlyTouched(c, Initial(c), accesses, 0) && TouchInv(c, Initial(c), accesses, FirstTouches(c, accesses, 0))
  {
  }

  /**
   In every run, access n gets the page of the first access to its virtual page: at the
   node of that access, with as many pages before it as virtual pages had been touched
   before; within the page it keeps its offset.
   */
  lemma FirstTouch(c: Setup, states: seq<State>, accesses: seq<Access>, n: nat) returns (j: nat)
    requires IsRun(c, states, accesses) && n < |accesses|
    ensures var ts := FirstTouches(c, accesses, n + 1);
            && j < |ts| && ts[j] <= n && IsFirst(c, accesses, ts[j])
            && Vfn(c, accesses[ts[j]].v) == Vfn(c, accesses[n].v)
            && Translate(c, states[n], accesses[n].v, accesses[n].node).address ==
               OnPage(c, j, accesses[ts[j]].node, accesses[n].v)
  {
    hide Translate, OnPage, Vfn, FirstTouches, Inv, TableOk, Mapped, Placed, IsFirst, OnlyTouched;
    RunTouches(c, states, accesses, n + 1);
    TouchesFirst(c, accesses, n + 1);
    RunInv(c, states, accesses, n);
    TranslateKeeps(c, states[n], accesses[n].v, accesses[n].node);
    j := TouchIndex(c, accesses, n + 1, n);
    var k := FirstTouches(c, accesses, n + 1)[j];
    SamePage(c, states[n + 1], accesses[k].v, accesses[n].v);
    OnPageShift(c, j, accesses[k].node, accesses[k].v, accesses[n].v);
  }

  lemma OnPageShift(c: Setup, j: nat, node: nat, u: nat, v: nat)
    ensures OnPage(c, j, node, v) - Offset(c, v) == OnPage(c, j, node, u) - Offset(c, u)
  {
  }

  /** A run cannot go on exactly when a new page is touched and all physical pages are used. */
  lemma FullExactly(c: Setup, states: seq<State>, accesses: seq<Access>, a: Access)
    requires IsRun(c, states, accesses)
    ensures TableOk(c, states[|accesses|])
    ensures Translate(c, states[|accesses|], a.v, a.node).OutOfPages? <==>
            |FirstTouches(c, accesses, |accesses|)| == c.physPages
            && forall i :: 0 <= i < |accesses| ==> Vfn(c, accesses[i].v) != Vfn(c, a.v)
  {
    hide Translate, Vfn, Mapped;
    var n, s := |accesses|, states[|accesses|];
    RunInv(c, states, accesses, n);
    RunTouches(c, states, accesses, n);
    TranslateKeeps(c, s, a.v, a.node);
    SameTouches(c, accesses, accesses + [a], n);
    var longer := accesses + [a];
    assert longer[n] == a;
    LongerInv(c, s, accesses, a);
    FirstUnmapped(c, s, longer, n);
    assert IsFirst(c, longer, n) <==> forall i :: 0 <= i < n ==> Vfn(c, accesses[i].v) != Vfn(c, a.v);
  }

  lemma {:induction false} SameTouches(c: Setup, accesses: seq<Access>, longer: seq<Access>, n: nat)
    requires n <= |accesses| <= |longer| && accesses == longer[..|accesses|]
    ensures FirstTouches(c, longer, n) == FirstTouches(c, accesses, n)
  {
    if n > 0 { SameTouches(c, accesses, longer, n - 1); }
  }

  lemma LongerInv(c: Setup, s: State, accesses: seq<Access>, a: Access)
    requires Inv(c, s) && OnlyTouched(c, s, accesses, |accesses|)
    requires TouchInv(c, s, accesses, FirstTouches(c, accesses, |accesses|))
    ensures OnlyTouched(c, s, accesses + [a], |accesses|)
    ensures TouchInv(c, s, accesses + [a], FirstTouches(c, accesses, |accesses|))
  {
    hide Mapped, Placed, OnPage, Vfn, Inv;
    var longer := accesses + [a];
    assert forall i :: 0 <= i < |accesses| ==> longer[i] == accesses[i];
    TouchesFirst(c, accesses, |accesses|);
    hide FirstTouches, IsFirst;
    forall p | 0 <= p < |s.memory.ptes| && s.memory.ptes[p].valid
      ensures exists i :: 0 <= i < |accesses| && Vfn(c, longer[i].v) == s.memory.ptes[p].vfn
    {
      var i :| 0 <= i < |accesses| && Vfn(c, accesses[i].v) == s.memory.ptes[p].vfn;
      assert Vfn(c, longer[i].v) == s.memory.ptes[p].vfn;
    }
  }

  // ---------------------------------------------------------------- the unit in place

  class Unit {
    const ls: seq<Level>
    var tables: seq<Table>
    var ptes: seq<Pte>
    var physmem: seq<nat>
    var lastPage: nat

    ghost function Whole(): State
      reads this
    {
      State(Value(), physmem, lastPage)
    }

    ghost function Value(): Memory
      reads this
    {
      Memory(tables, ptes)
    }

    constructor (ls: seq<Level>)
      requires |ls| > 0
      ensures this.ls == ls && Whole() == State(Memory([NewTable(ls, 0)], []), [], 0)
    {
      this.ls, tables, ptes, physmem, lastPage := ls, [NewTable(ls, 0)], [], [], 0;
    }

    method SetSlot(t: nat, i: nat, target: nat)
      requires t < |tables| && i < |tables[t].slots|
      modifies `tables
      ensures Value() == WithSlot(old(Value()), t, i, target)
    {
      tables := tables[t := Table(tables[t].level, tables[t].slots[i := Some(target)])];
    }

    /** `bits` is the number of high bits resolved by the levels above, `mask` what is left of the frame number. */
    method PtLookupHelper(vfn: nat, vfnBits: nat, bits: nat, mask: nat, t: nat) returns (p: nat)
      requires Shape(ls, Value()) && Sized(ls) && t < |tables| && bits + Bits(ls, tables[t].level) == vfnBits
      requires forall i :: 0 <= i < |ls| ==> (ls[i].leaf <==> i == |ls| - 1)
      modifies `tables, `ptes
      ensures (Value(), p) == Walk(ls, old(Value()), vfn, mask, t)
      decreases |ls| - tables[t].level
    {
      var level := tables[t].level;
      var logSize := ls[level].logSize;
      var index := mask / Pow2(vfnBits - bits - logSize) % Pow2(logSize);
      var below := mask % Pow2(vfnBits - (bits + logSize));
      assert index == Index(ls, level, mask) && below == Below(ls, level, mask);
      if ls[level].leaf {
        if tables[t].slots[index].None? {
          ptes := ptes + [NewPte(vfn)];
          SetSlot(t, index, |ptes| - 1);
        }
        p := tables[t].slots[index].value;
      } else {
        ghost var m := Value();
        if tables[t].slots[index].None? {
          tables := tables + [NewTable(ls, level + 1)];
          SetSlot(t, index, |tables| - 1);
          assert Value() == Grown(ls, m, t, index);
          GrownShape(ls, m, t, index);
        }
        var child := tables[t].slots[index].value;
        assert SlotOk(ls, Value(), t, Child(Value(), t, index).value);
        p := PtLookupHelper(vfn, vfnBits, bits + logSize, below, child);
      }
    }

    /** Loads the next physical page for an entry; `ok` is false where an assertion of the allocator fails. */
    method Handle(c: Setup, p: nat, node: nat) returns (ok: bool)
      requires p < |ptes| && forall k :: 0 <= k < |physmem| ==> physmem[k] < |ptes|
      modifies this
      ensures ok <==> Fault(c, old(Whole()), p, node).Some?
      ensures ok ==> Whole() == Fault(c, old(Whole()), p, node).value
    {
      var phn := lastPage;
      if phn > c.physPages || phn >= c.physPages || ptes[p].valid {
        return false;
      }
      var k := 0;
      while k < |physmem|
        invariant k <= |physmem| && Whole() == old(Whole())
        invariant forall j :: 0 <= j < k ==> ptes[physmem[j]].pfn != phn
      {
        if ptes[physmem[k]].pfn == phn {
          assert Loaded(Whole(), phn);
          return false;
        }
        k := k + 1;
      }
      lastPage := lastPage + 1;
      ptes := ptes[p := Pte(ptes[p].vfn, phn, node, true, false)];
      physmem := physmem + [p];
      return true;
    }

    method Xlat(c: Setup, v: nat, node: nat) returns (r: Option<int>)
      requires Inv(c, Whole()) && c.ls == ls
      modifies this
      ensures match Translate(c, old(Whole()), v, node)
              case Ok(s, a) => r == Some(a) && Whole() == s
              case OutOfPages => r == None
    {
      LookUpKeeps(c, Whole(), v);
      var p := PtLookupHelper(Vfn(c, v), c.vfnBits, 0, Vfn(c, v), 0);
      assert (Whole(), p) == LookUp(c, old(Whole()), v);
      if !ptes[p].valid {
        var ok := Handle(c, p, node);
        if !ok {
          return None;
        }
      }
      return Some(Address(c, ptes[p], v));
    }
  }
}
