/**
 The memory directory: which node owns a cache line, and where in that node's
 DRAM the line lives.  Each node keeps a map from lines to frames, the set of
 lines it owns, a list of frames given back, and the first frame never used.
 The nodes form a ring of `next` pointers that every owner search walks.
 Each operation runs under the one lock shared by all nodes.
 */
module Directory {
  import opened Requests
  import opened Wrappers

  type Frame = nat

  /** `address_map`, `address_table`, `empty_addr` and `last_addr` of one node. */
  datatype Table = Table(frames: map<Line, Frame>, owned: set<Line>, empty: seq<Frame>, last: Frame)

  // ---------------------------------------------------------------- one node

  /** The line gets the frame given back last, or else the first unused one. */
  function RealAddress(t: Table, size: nat, line: Line): Table
  {
    if line in t.frames then t
    else if t.empty != [] then
      Table(t.frames[line := NextFrame(t)], t.owned + {line}, t.empty[..|t.empty| - 1], t.last)
    else
      Table(t.frames[line := NextFrame(t)], t.owned + {line}, t.empty, t.last + size)
  }

  /** The frame the next new line of the node gets. */
  function NextFrame(t: Table): Frame
  {
    if t.empty != [] then t.empty[|t.empty| - 1] else t.last
  }

  /** The frame the node names for a line: the mapped one, or else the next one. */
  function FrameOf(t: Table, line: Line): Frame
  {
    if line in t.frames then t.frames[line] else NextFrame(t)
  }

  /** The node gives the line up; its frame joins the free list. */
  function Release(t: Table, line: Line): Table
    requires line in t.frames
  {
    Table(t.frames - {line}, t.owned - {line}, t.empty + [t.frames[line]], t.last)
  }

  function Nth(base: nat, size: nat, k: nat): Frame { base + k * size }

  predicate InFrames(t: Table, f: Frame)
  {
    exists l :: l in t.frames && t.frames[l] == f
  }

  predicate IsNth(base: nat, size: nat, n: nat, f: Frame)
  {
    exists k: nat :: k < n && f == Nth(base, size, k)
  }

  /** No two lines share a frame, no free frame is listed twice, and no frame is both mapped and free. */
  ghost predicate NoSharing(t: Table)
  {
    && (forall l, m :: l in t.frames && m in t.frames && t.frames[l] == t.frames[m] ==> l == m)
    && (forall i, j :: 0 <= i < j < |t.empty| ==> t.empty[i] != t.empty[j])
    && (forall f :: !(InFrames(t, f) && f in t.empty))
  }

  /** Mapped frames and free frames together are the frames carved so far. */
  ghost predicate Carved(t: Table, base: nat, size: nat)
  {
    && (forall f :: InFrames(t, f) || f in t.empty <==> IsNth(base, size, |t.frames| + |t.empty|, f))
    && t.last == Nth(base, size, |t.frames| + |t.empty|)
  }

  /** The account of one node: lines mapped are lines owned, and every carved frame is mapped or free, once. */
  ghost predicate Conserved(t: Table, base: nat, size: nat)
  {
    t.frames.Keys == t.owned && NoSharing(t) && Carved(t, base, size)
  }

  lemma NthNext(base: nat, size: nat, k: nat)
    ensures Nth(base, size, k + 1) == Nth(base, size, k) + size
  {
  }

  lemma {:induction false} NthRises(base: nat, size: nat, k: nat, n: nat)
    requires size > 0 && k < n
    ensures Nth(base, size, k) < Nth(base, size, n)
  {
    NthNext(base, size, n - 1);
    hide Nth;
    if k < n - 1 { NthRises(base, size, k, n - 1); }
  }

  lemma NthGrows(base: nat, size: nat, n: nat)
    requires size > 0
    ensures Nth(base, size, n + 1) == Nth(base, size, n) + size
    ensures !IsNth(base, size, n, Nth(base, size, n))
    ensures forall f :: IsNth(base, size, n + 1, f) <==> IsNth(base, size, n, f) || f == Nth(base, size, n)
  {
    NthNext(base, size, n);
    hide Nth;
    forall k: nat | k < n ensures Nth(base, size, k) != Nth(base, size, n) { NthRises(base, size, k, n); }
    forall f | IsNth(base, size, n, f) ensures IsNth(base, size, n + 1, f) {
      var k: nat :| k < n && f == Nth(base, size, k);
      assert k < n + 1;
    }
  }

  /** t' maps one line more than t, to frame f. */
  predicate MapsMore(t: Table, t': Table, line: Line, f: Frame)
  {
    line !in t.frames && t'.frames == t.frames[line := f]
  }

  lemma Mapped(t: Table, t': Table, line: Line, f: Frame)
    requires MapsMore(t, t', line, f)
    ensures forall g :: InFrames(t', g) <==> InFrames(t, g) || g == f
    ensures |t'.frames| == |t.frames| + 1
  {
    assert t'.frames.Keys == t.frames.Keys + {line};
    forall g ensures InFrames(t', g) <==> InFrames(t, g) || g == f {
      assert t'.frames[line] == f;
      if InFrames(t, g) {
        var l :| l in t.frames && t.frames[l] == g;
        assert t'.frames[l] == g;
      }
    }
  }

  lemma FreeMembers(t: Table, t': Table, f: Frame)
    requires t.empty == t'.empty + [f]
    ensures forall g :: g in t.empty <==> g in t'.empty || g == f
  {
  }

  lemma MappedFrame(t: Table, l: Line)
    requires l in t.frames
    ensures InFrames(t, t.frames[l])
  {
  }

  lemma TakenSharing(t: Table, t': Table, line: Line, f: Frame)
    requires MapsMore(t, t', line, f) && t.empty == t'.empty + [f] && NoSharing(t)
    ensures NoSharing(t')
  {
    Mapped(t, t', line, f);
    forall i | 0 <= i < |t'.empty| ensures t'.empty[i] != f && t'.empty[i] == t.empty[i] {
      assert t.empty[i] == t'.empty[i] && t.empty[|t'.empty|] == f;
    }
    assert f in t.empty by { assert t.empty[|t'.empty|] == f; }
    forall l | l in t.frames ensures t.frames[l] != f { MappedFrame(t, l); }
  }

  lemma GivenSharing(t: Table, t': Table, line: Line, f: Frame)
    requires MapsMore(t, t', line, f) && t.empty == t'.empty + [f] && NoSharing(t')
    ensures NoSharing(t)
  {
    Mapped(t, t', line, f);
    assert t'.frames[line] == f;
    MappedFrame(t', line);
    forall l | l in t.frames ensures t.frames[l] == t'.frames[l] != f { assert t'.frames[l] == t.frames[l]; }
    assert !InFrames(t, f);
    forall i | 0 <= i < |t'.empty| ensures t'.empty[i] != f && t'.empty[i] == t.empty[i] {
    }
  }

  lemma MovedSharing(t: Table, t': Table, line: Line, f: Frame)
    requires MapsMore(t, t', line, f) && t.empty == t'.empty + [f]
    ensures NoSharing(t) <==> NoSharing(t')
  {
    hide NoSharing;
    if NoSharing(t) { TakenSharing(t, t', line, f); }
    if NoSharing(t') { GivenSharing(t, t', line, f); }
  }

  lemma MovedCarved(t: Table, t': Table, base: nat, size: nat, line: Line, f: Frame)
    requires MapsMore(t, t', line, f) && t.empty == t'.empty + [f] && t'.last == t.last
    ensures Carved(t, base, size) <==> Carved(t', base, size)
  {
    Mapped(t, t', line, f);
    FreeMembers(t, t', f);
    hide InFrames, IsNth;
  }

  /** A frame that moves between the free list and the map leaves the account balanced. */
  lemma Moved(t: Table, t': Table, base: nat, size: nat, line: Line, f: Frame)
    requires MapsMore(t, t', line, f) && t.empty == t'.empty + [f] && t'.last == t.last
    requires line !in t.owned && t'.owned == t.owned + {line}
    ensures Conserved(t, base, size) <==> Conserved(t', base, size)
  {
    MovedSharing(t, t', line, f);
    MovedCarved(t, t', base, size, line, f);
    hide NoSharing, Carved;
    assert t'.frames.Keys == t.frames.Keys + {line};
    assert t.frames.Keys == t'.frames.Keys - {line} && t.owned == t'.owned - {line};
  }

  /** A frame carved from unused memory extends the account by one. */
  lemma Extended(t: Table, t': Table, base: nat, size: nat, line: Line)
    requires Conserved(t, base, size) && size > 0
    requires MapsMore(t, t', line, t.last) && t'.empty == t.empty && t'.last == t.last + size
    requires t'.owned == t.owned + {line}
    ensures Conserved(t', base, size)
  {
    Mapped(t, t', line, t.last);
    NthGrows(base, size, |t.frames| + |t.empty|);
    hide IsNth, InFrames;
    forall l | l in t.frames ensures t.frames[l] != t.last { MappedFrame(t, l); }
    assert t'.frames.Keys == t.frames.Keys + {line};
  }

  /** Allocation keeps the account, gives the line a frame and disturbs no other line. */
  lemma RealAddressConserves(t: Table, base: nat, size: nat, line: Line)
    requires Conserved(t, base, size) && size > 0
    ensures Conserved(RealAddress(t, size, line), base, size)
    ensures RealAddress(t, size, line).owned == t.owned + {line}
    ensures forall l :: l in t.frames ==> l in RealAddress(t, size, line).frames
                                          && RealAddress(t, size, line).frames[l] == t.frames[l]
  {
    if line !in t.frames {
      if t.empty != [] { Moved(t, RealAddress(t, size, line), base, size, line, t.empty[|t.empty| - 1]); }
      else { Extended(t, RealAddress(t, size, line), base, size, line); }
    }
  }

  /** Giving a line up keeps the account: its frame moves to the free list. */
  lemma ReleaseConserves(t: Table, base: nat, size: nat, line: Line)
    requires Conserved(t, base, size) && line in t.frames
    ensures Conserved(Release(t, line), base, size)
    ensures Release(t, line).owned == t.owned - {line}
    ensures forall l :: l in t.frames && l != line ==> l in Release(t, line).frames
                                                       && Release(t, line).frames[l] == t.frames[l]
  {
    assert t.frames == Release(t, line).frames[line := t.frames[line]];
    Moved(Release(t, line), t, base, size, line, t.frames[line]);
  }

  // ---------------------------------------------------------------- the ring

  /** The position k steps round a ring of n, starting from i. */
  function Round(i: nat, k: nat, n: nat): (r: nat)
    requires i < n && k <= n
    ensures r < n
  {
    if i + k < n then i + k else i + k - n
  }

  /** The first owner met from step k on, walking the ring from node me. */
  function Search(ts: seq<Table>, me: nat, k: nat, line: Line): Option<nat>
    requires me < |ts| && k <= |ts|
    decreases |ts| - k
  {
    if k == |ts| then None
    else if line in ts[Round(me, k, |ts|)].owned then Some(Round(me, k, |ts|))
    else Search(ts, me, k + 1, line)
  }

  /** The search misses no owner from step k on. */
  lemma {:induction false} SearchFinds(ts: seq<Table>, me: nat, k: nat, line: Line)
    requires me < |ts| && k <= |ts|
    ensures var r := Search(ts, me, k, line);
            match r
            case Some(i) => i < |ts| && line in ts[i].owned && (k > 0 ==> i != me)
            case None => forall j :: k <= j < |ts| ==> line !in ts[Round(me, j, |ts|)].owned
    decreases |ts| - k
  {
    if k < |ts| { SearchFinds(ts, me, k + 1, line); }
  }

  lemma SearchNone(ts: seq<Table>, me: nat, k: nat, line: Line)
    requires me < |ts| && k <= 1 && k <= |ts| && Search(ts, me, k, line) == None
    ensures forall i :: 0 <= i < |ts| && (k > 0 ==> i != me) ==> line !in ts[i].owned
  {
    SearchFinds(ts, me, k, line);
    forall i | 0 <= i < |ts| && (k > 0 ==> i != me) ensures line !in ts[i].owned {
      var j := if i >= me then i - me else i + |ts| - me;
      assert Round(me, j, |ts|) == i;
    }
  }

  // ---------------------------------------------------------------- operations on the whole directory

  datatype Op =
    | Touch(me: nat, line: Line)                  // a core of node `me` accesses the line
    | Migrate(me: nat, dest: nat, line: Line)     // socket `me` finished a probe for a write by node `dest`
    /** Socket `me` writes a dirty line back for an invalidation; `carried` is the frame the answer names. */
    | TakeOver(me: nat, line: Line, carried: Frame)

  predicate WellFormed(ts: seq<Table>, op: Op)
  {
    op.me < |ts| && (op.Migrate? ==> op.dest < |ts| && op.dest != op.me)
  }

  function RealAddressAt(ts: seq<Table>, size: nat, i: nat, line: Line): seq<Table>
    requires i < |ts|
  {
    ts[i := RealAddress(ts[i], size, line)]
  }

  function ReleaseAt(ts: seq<Table>, i: nat, line: Line): seq<Table>
    requires i < |ts| && line in ts[i].frames
  {
    ts[i := Release(ts[i], line)]
  }

  /** The assertions of the source on the way of an operation. */
  predicate AssertsHold(ts: seq<Table>, op: Op)
    requires WellFormed(ts, op)
  {
    match op
    case Touch(_, _) => true
    case Migrate(me, dest, line) =>
      line in ts[me].owned ==> line in ts[me].frames && line !in ts[dest].owned
    case TakeOver(me, line, carried) =>
      var r := Search(ts, me, 1, line);
      && (r.Some? ==> r.value < |ts| && line in ts[r.value].frames)
      && (line in ts[me].owned ==> FrameOf(ts[me], line) == carried)
  }

  function Apply(ts: seq<Table>, size: nat, op: Op): seq<Table>
    requires WellFormed(ts, op) && AssertsHold(ts, op)
  {
    match op
    case Touch(me, line) =>
      var r := Search(ts, me, 0, line);
      if r.Some? && r.value < |ts| then RealAddressAt(ts, size, r.value, line)
      else RealAddressAt(ts, size, me, line)
    case Migrate(me, dest, line) =>
      if line in ts[me].owned then RealAddressAt(ReleaseAt(ts, me, line), size, dest, line) else ts
    case TakeOver(me, line, _) =>
      var r := Search(ts, me, 1, line);
      var freed := if r.Some? then ReleaseAt(ts, r.value, line) else ts;
      RealAddressAt(freed, size, me, line)
  }

  // ---------------------------------------------------------------- invariant over all runs

  ghost predicate SingleOwner(ts: seq<Table>)
  {
    forall i, j, l :: 0 <= i < |ts| && 0 <= j < |ts| && l in ts[i].owned && l in ts[j].owned ==> i == j
  }

  ghost predicate AllConserved(ts: seq<Table>, bases: seq<nat>, size: nat)
  {
    |bases| == |ts| && size > 0 && forall i :: 0 <= i < |ts| ==> Conserved(ts[i], bases[i], size)
  }

  ghost predicate Owned(ts: seq<Table>, line: Line)
  {
    exists i :: 0 <= i < |ts| && line in ts[i].owned
  }

  function Fresh(bases: seq<nat>): seq<Table>
  {
    seq(|bases|, i requires 0 <= i < |bases| => Table(map[], {}, [], bases[i]))
  }

  lemma FreshOk(bases: seq<nat>, size: nat)
    requires size > 0
    ensures SingleOwner(Fresh(bases)) && AllConserved(Fresh(bases), bases, size)
  {
    forall i | 0 <= i < |bases| ensures Conserved(Fresh(bases)[i], bases[i], size) {
      assert Fresh(bases)[i].frames.Keys == {};
    }
  }

  /** The frame carried by a takeover is still the one of the line, if the node owns the line already. */
  predicate CarriesFrame(ts: seq<Table>, op: Op)
    requires WellFormed(ts, op)
  {
    op.TakeOver? && op.line in ts[op.me].owned ==> op.line in ts[op.me].frames && ts[op.me].frames[op.line] == op.carried
  }

  /** Only the carried frame can fail an assertion: the owner searched for is there and holds a frame. */
  lemma NoAssertionFails(ts: seq<Table>, bases: seq<nat>, size: nat, op: Op)
    requires SingleOwner(ts) && AllConserved(ts, bases, size) && WellFormed(ts, op)
    ensures AssertsHold(ts, op) <==> CarriesFrame(ts, op)
  {
    SearchFinds(ts, op.me, 1, op.line);
    assert forall i :: 0 <= i < |ts| ==> Conserved(ts[i], bases[i], size);
  }

  /** What one operation does: it keeps the account, gives the line exactly one owner and disturbs no other line. */
  lemma StepKeeps(ts: seq<Table>, bases: seq<nat>, size: nat, op: Op)
    requires SingleOwner(ts) && AllConserved(ts, bases, size) && WellFormed(ts, op) && AssertsHold(ts, op)
    ensures var ts' := Apply(ts, size, op);
            && SingleOwner(ts') && AllConserved(ts', bases, size)
            && (forall l :: Owned(ts, l) ==> Owned(ts', l))
            && (!op.Migrate? ==> Owned(ts', op.line))
            && (forall i, l :: 0 <= i < |ts| && l != op.line && l in ts[i].frames ==>
                  l in ts'[i].frames && ts'[i].frames[l] == ts[i].frames[l])
  {
    match op
    case Touch(me, line) =>
      SearchFinds(ts, me, 0, line);
      if Search(ts, me, 0, line) == None { SearchNone(ts, me, 0, line); }
      var o := if Search(ts, me, 0, line).Some? then Search(ts, me, 0, line).value else me;
      GrantKeeps(ts, bases, size, o, line);
    case Migrate(me, dest, line) =>
      if line in ts[me].owned {
        ReleaseKeeps(ts, bases, size, me, line);
        GrantKeeps(ReleaseAt(ts, me, line), bases, size, dest, line);
      }
    case TakeOver(me, line, _) =>
      SearchFinds(ts, me, 1, line);
      var r := Search(ts, me, 1, line);
      if r.Some? {
        ReleaseKeeps(ts, bases, size, r.value, line);
        GrantKeeps(ReleaseAt(ts, r.value, line), bases, size, me, line);
      } else {
        SearchNone(ts, me, 1, line);
        GrantKeeps(ts, bases, size, me, line);
      }
  }

  /** Granting a line nobody else owns. */
  lemma GrantKeeps(ts: seq<Table>, bases: seq<nat>, size: nat, i: nat, line: Line)
    requires SingleOwner(ts) && AllConserved(ts, bases, size) && i < |ts|
    requires forall j :: 0 <= j < |ts| && j != i ==> line !in ts[j].owned
    ensures var ts' := RealAddressAt(ts, size, i, line);
            && SingleOwner(ts') && AllConserved(ts', bases, size) && line in ts'[i].owned
            && (forall l :: Owned(ts, l) ==> Owned(ts', l))
            && (line in ts[i].owned ==> ts' == ts)
            && (forall j, l :: 0 <= j < |ts| && l in ts[j].frames ==>
                  l in ts'[j].frames && ts'[j].frames[l] == ts[j].frames[l])
  {
    var ts' := RealAddressAt(ts, size, i, line);
    RealAddressConserves(ts[i], bases[i], size, line);
    forall l | Owned(ts, l) ensures Owned(ts', l) {
      var j :| 0 <= j < |ts| && l in ts[j].owned;
      assert l in ts'[j].owned;
    }
  }

  lemma ReleaseKeeps(ts: seq<Table>, bases: seq<nat>, size: nat, i: nat, line: Line)
    requires SingleOwner(ts) && AllConserved(ts, bases, size) && i < |ts| && line in ts[i].frames
    ensures var ts' := ReleaseAt(ts, i, line);
            && SingleOwner(ts') && AllConserved(ts', bases, size)
            && (forall j :: 0 <= j < |ts| ==> line !in ts'[j].owned)
            && (forall l :: l != line && Owned(ts, l) ==> Owned(ts', l))
            && (forall j, l :: 0 <= j < |ts| && l != line && l in ts[j].frames ==>
                  l in ts'[j].frames && ts'[j].frames[l] == ts[j].frames[l])
  {
    var ts' := ReleaseAt(ts, i, line);
    assert Conserved(ts[i], bases[i], size);
    ReleaseConserves(ts[i], bases[i], size, line);
    forall l | l != line && Owned(ts, l) ensures Owned(ts', l) {
      var j :| 0 <= j < |ts| && l in ts[j].owned;
      assert l in ts'[j].owned;
    }
  }

  /** A run of the directory: the successive tables of all nodes. */
  ghost predicate IsRun(states: seq<seq<Table>>, ops: seq<Op>, bases: seq<nat>, size: nat)
  {
    && |states| == |ops| + 1 && size > 0
    && states[0] == Fresh(bases)
    && forall i :: 0 <= i < |ops| ==>
         WellFormed(states[i], ops[i]) && AssertsHold(states[i], ops[i]) && states[i + 1] == Apply(states[i], size, ops[i])
  }

  lemma {:induction false} RunKeeps(states: seq<seq<Table>>, ops: seq<Op>, bases: seq<nat>, size: nat, n: nat)
    requires IsRun(states, ops, bases, size) && n <= |ops|
    ensures SingleOwner(states[n]) && AllConserved(states[n], bases, size)
  {
    if n == 0 { FreshOk(bases, size); }
    else {
      RunKeeps(states, ops, bases, size, n - 1);
      StepKeeps(states[n - 1], bases, size, ops[n - 1]);
    }
  }

  /** Over any run, a line once owned stays owned, by exactly one node at any time. */
  lemma {:induction false} OwnedForever(states: seq<seq<Table>>, ops: seq<Op>, bases: seq<nat>, size: nat,
                                        m: nat, n: nat, line: Line)
    requires IsRun(states, ops, bases, size) && m <= n <= |ops| && Owned(states[m], line)
    ensures exists i :: 0 <= i < |states[n]| && line in states[n][i].owned
                        && forall j :: 0 <= j < |states[n]| && j != i ==> line !in states[n][j].owned
    decreases n
  {
    hide AllConserved, AssertsHold, Apply;
    RunKeeps(states, ops, bases, size, n);
    assert Owned(states[n], line) by {
      if m < n {
        OwnedForever(states, ops, bases, size, m, n - 1, line);
        RunKeeps(states, ops, bases, size, n - 1);
        StepKeeps(states[n - 1], bases, size, ops[n - 1]);
      }
    }
    var i :| 0 <= i < |states[n]| && line in states[n][i].owned;
    assert forall j :: 0 <= j < |states[n]| && j != i ==> line !in states[n][j].owned;
  }

  // ---------------------------------------------------------------- refinement of a plain owner map

  /** The effect of an operation on an ideal directory, a map from lines to their one owner. */
  function Ideal(m: map<Line, nat>, op: Op): map<Line, nat>
  {
    match op
    case Touch(me, line) => if line in m then m else m[line := me]
    case Migrate(me, dest, line) => if line in m && m[line] == me then m[line := dest] else m
    case TakeOver(me, line, _) => m[line := me]
  }

  function IdealRun(ops: seq<Op>): map<Line, nat>
  {
    if ops == [] then map[] else Ideal(IdealRun(ops[..|ops| - 1]), ops[|ops| - 1])
  }

  ghost predicate Represents(ts: seq<Table>, m: map<Line, nat>)
  {
    && (forall l :: l in m ==> m[l] < |ts|)
    && (forall i, l {:trigger l in ts[i].owned} :: 0 <= i < |ts| ==> (l in ts[i].owned <==> l in m && m[l] == i))
  }

  lemma GrantRefines(ts: seq<Table>, bases: seq<nat>, size: nat, i: nat, line: Line, m: map<Line, nat>)
    requires AllConserved(ts, bases, size) && Represents(ts, m) && i < |ts|
    requires line in m ==> m[line] == i
    ensures Represents(RealAddressAt(ts, size, i, line), m[line := i])
    ensures line in m ==> m[line := i] == m
  {
    RealAddressConserves(ts[i], bases[i], size, line);
    hide RealAddress, AllConserved, Conserved;
    var ts' := RealAddressAt(ts, size, i, line);
    forall j, l | 0 <= j < |ts'| ensures l in ts'[j].owned <==> l in m[line := i] && m[line := i][l] == j {
      assert l in ts'[j].owned <==> l in ts[j].owned || (j == i && l == line);
      assert l in ts[j].owned <==> l in m && m[l] == j;
    }
  }

  lemma ReleaseRefines(ts: seq<Table>, bases: seq<nat>, size: nat, i: nat, line: Line, m: map<Line, nat>)
    requires AllConserved(ts, bases, size) && Represents(ts, m) && i < |ts| && line in ts[i].owned
    ensures line in ts[i].frames && Represents(ReleaseAt(ts, i, line), m - {line})
    ensures AllConserved(ReleaseAt(ts, i, line), bases, size) && |ReleaseAt(ts, i, line)| == |ts|
  {
    assert Conserved(ts[i], bases[i], size);
    ReleaseConserves(ts[i], bases[i], size, line);
    hide Release, Conserved;
  }

  lemma StepRefines(ts: seq<Table>, bases: seq<nat>, size: nat, op: Op, m: map<Line, nat>)
    requires SingleOwner(ts) && AllConserved(ts, bases, size) && WellFormed(ts, op) && AssertsHold(ts, op)
    requires Represents(ts, m)
    ensures Represents(Apply(ts, size, op), Ideal(m, op))
  {
    hide Conserved, AllConserved, RealAddressAt, ReleaseAt;
    if op.line in m { assert op.line in ts[m[op.line]].owned; }
    match op
    case Touch(me, line) =>
      SearchFinds(ts, me, 0, line);
      if Search(ts, me, 0, line) == None { SearchNone(ts, me, 0, line); }
      var o := if Search(ts, me, 0, line).Some? then Search(ts, me, 0, line).value else me;
      GrantRefines(ts, bases, size, o, line, m);
    case Migrate(me, dest, line) =>
      if line in ts[me].owned {
        ReleaseRefines(ts, bases, size, me, line, m);
        GrantRefines(ReleaseAt(ts, me, line), bases, size, dest, line, m - {line});
        assert (m - {line})[line := dest] == m[line := dest];
      }
    case TakeOver(me, line, _) =>
      SearchFinds(ts, me, 1, line);
      var r := Search(ts, me, 1, line);
      if r.Some? {
        ReleaseRefines(ts, bases, size, r.value, line, m);
        GrantRefines(ReleaseAt(ts, r.value, line), bases, size, me, line, m - {line});
        assert (m - {line})[line := me] == m[line := me];
      } else {
        SearchNone(ts, me, 1, line);
        GrantRefines(ts, bases, size, me, line, m);
      }
  }

  /** Over any run the tables of all nodes represent the ideal owner map. */
  lemma {:induction false} RunRefines(states: seq<seq<Table>>, ops: seq<Op>, bases: seq<nat>, size: nat, n: nat)
    requires IsRun(states, ops, bases, size) && n <= |ops|
    ensures Represents(states[n], IdealRun(ops[..n]))
  {
    if n > 0 {
      RunRefines(states, ops, bases, size, n - 1);
      RunKeeps(states, ops, bases, size, n - 1);
      StepRefines(states[n - 1], bases, size, ops[n - 1], IdealRun(ops[..n - 1]));
      assert ops[..n][..n - 1] == ops[..n - 1];
    }
  }

  /**
   A home that pops a request for a line it no longer owns finds the owner among
   the other nodes, and a frame address that cannot be mistaken for "not found",
   for every line touched before.
   */
  lemma RequeueFindsOwner(states: seq<seq<Table>>, ops: seq<Op>, bases: seq<nat>, size: nat, me: nat, m: nat)
    requires IsRun(states, ops, bases, size) && (forall i :: 0 <= i < |bases| ==> bases[i] > 0)
    requires m < |ops| && ops[m].Touch?
    requires me < |states[|ops|]| && ops[m].line !in states[|ops|][me].owned
    ensures var ts, line := states[|ops|], ops[m].line; var r := Search(ts, me, 1, line);
            && r.Some? && r.value < |ts| && r.value != me
            && line in ts[r.value].owned && line in ts[r.value].frames && ts[r.value].frames[line] != 0
            && (forall j :: 0 <= j < |ts| && line in ts[j].owned ==> j == r.value)
  {
    hide Conserved, Apply, AssertsHold;
    var ts, line := states[|ops|], ops[m].line;
    RunKeeps(states, ops, bases, size, m);
    StepKeeps(states[m], bases, size, ops[m]);
    RunKeeps(states, ops, bases, size, |ops|);
    OwnedForever(states, ops, bases, size, m + 1, |ops|, line);
    SearchFinds(ts, me, 1, line);
    var r := Search(ts, me, 1, line);
    if r == None { SearchNone(ts, me, 1, line); assert false; }
    FrameNonZero(ts[r.value], bases[r.value], size, line);
  }

  /** The write that follows the last acknowledgement finds the line's only owner, and it holds a frame. */
  lemma StoreFindsOwner(states: seq<seq<Table>>, ops: seq<Op>, bases: seq<nat>, size: nat, me: nat, m: nat)
    requires IsRun(states, ops, bases, size) && m < |ops| && ops[m].Touch? && me < |states[|ops|]|
    ensures var ts, line := states[|ops|], ops[m].line; var r := Search(ts, me, 0, line);
            && r.Some? && r.value < |ts| && line in ts[r.value].frames
            && (forall j :: 0 <= j < |ts| && line in ts[j].owned ==> j == r.value)
  {
    var ts, line := states[|ops|], ops[m].line;
    RunKeeps(states, ops, bases, size, m);
    StepKeeps(states[m], bases, size, ops[m]);
    RunKeeps(states, ops, bases, size, |ops|);
    hide Apply, AssertsHold, NoSharing, Carved;
    OwnedForever(states, ops, bases, size, m + 1, |ops|, line);
    SearchFinds(ts, me, 0, line);
    var r := Search(ts, me, 0, line);
    if r == None { SearchNone(ts, me, 0, line); assert false; }
    assert Conserved(ts[r.value], bases[r.value], size);
  }

  lemma FrameNonZero(t: Table, base: nat, size: nat, line: Line)
    requires Conserved(t, base, size) && base > 0 && line in t.owned
    ensures line in t.frames && t.frames[line] != 0
  {
    MappedFrame(t, line);
    var k: nat :| k < |t.frames| + |t.empty| && t.frames[line] == Nth(base, size, k);
    assert k * size >= 0;
  }
}
