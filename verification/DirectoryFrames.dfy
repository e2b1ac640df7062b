/**
 The frame that travels with a request: it is looked up when the request is sent,
 or when a home finds that it has lost the line, and compared with the line's
 frame when a dirty copy is written back.  In between the line may have left the
 node and come back.
 */
module DirectoryFrames {
  import opened Requests
  import opened Wrappers
  import opened Directory

  // ---------------------------------------------------------------- frames over one step and over a run

  /** What one operation does to the frame of a line that node `me` owns afterwards. */
  ghost predicate FrameMoves(t: Table, t': Table, line: Line)
  {
    line in t'.owned ==>
      && line in t'.frames
      && t'.frames[line] == if line in t.owned then FrameOf(t, line) else NextFrame(t)
  }

  lemma RealAddressMoves(t: Table, base: nat, size: nat, granted: Line, line: Line)
    requires Conserved(t, base, size) && size > 0
    ensures FrameMoves(t, RealAddress(t, size, granted), line)
  {
    RealAddressConserves(t, base, size, granted);
    hide NoSharing, Carved;
  }

  lemma ReleaseMoves(t: Table, base: nat, size: nat, given: Line, line: Line)
    requires Conserved(t, base, size) && given in t.frames
    ensures FrameMoves(t, Release(t, given), line) && (line == given ==> line !in Release(t, given).owned)
  {
    hide NoSharing, Carved;
  }

  /** A node releases or is granted a line, never both in one operation. */
  ghost predicate Touches(t: Table, t': Table, size: nat, line: Line)
  {
    t' == t || t' == RealAddress(t, size, line) || (line in t.frames && t' == Release(t, line))
  }

  lemma StepTouches(ts: seq<Table>, size: nat, op: Op, i: nat)
    requires WellFormed(ts, op) && AssertsHold(ts, op) && i < |ts|
    ensures i < |Apply(ts, size, op)| && Touches(ts[i], Apply(ts, size, op)[i], size, op.line)
  {
    hide RealAddress, Release;
    if op.TakeOver? { SearchFinds(ts, op.me, 1, op.line); }
  }

  lemma StepFrame(ts: seq<Table>, bases: seq<nat>, size: nat, op: Op, i: nat, line: Line)
    requires AllConserved(ts, bases, size) && WellFormed(ts, op) && AssertsHold(ts, op) && i < |ts|
    ensures i < |Apply(ts, size, op)| && FrameMoves(ts[i], Apply(ts, size, op)[i], line)
  {
    StepTouches(ts, size, op, i);
    assert Conserved(ts[i], bases[i], size);
    RealAddressMoves(ts[i], bases[i], size, op.line, line);
    hide Apply, AssertsHold, RealAddress, NoSharing, Carved;
    if op.line in ts[i].frames { ReleaseMoves(ts[i], bases[i], size, op.line, line); }
  }

  predicate Owns(ts: seq<Table>, i: nat, line: Line)
  {
    i < |ts| && line in ts[i].owned
  }

  /** Node i owns the line in all states from the k-th to the n-th. */
  ghost predicate Held(states: seq<seq<Table>>, i: nat, line: Line, k: nat, n: nat)
    requires n < |states|
  {
    forall j :: k <= j <= n ==> Owns(states[j], i, line)
  }

  /** Step g brought the line back to node i, which owned it from then on. */
  ghost predicate Regained(states: seq<seq<Table>>, i: nat, line: Line, g: nat, n: nat)
    requires g < n < |states|
  {
    !Owns(states[g], i, line) && Held(states, i, line, g + 1, n)
  }

  lemma {:induction false} FrameHeld(states: seq<seq<Table>>, ops: seq<Op>, bases: seq<nat>, size: nat,
                                     i: nat, line: Line, k: nat, n: nat)
    requires IsRun(states, ops, bases, size) && k <= n <= |ops| && Held(states, i, line, k, n)
    ensures Owns(states[k], i, line) && Owns(states[n], i, line)
    ensures FrameOf(states[n][i], line) == FrameOf(states[k][i], line)
  {
    hide AllConserved, SingleOwner, Apply, AssertsHold, FrameOf, FrameMoves;
    assert Owns(states[k], i, line) && Owns(states[n], i, line);
    if k < n {
      assert Owns(states[n - 1], i, line);
      FrameHeld(states, ops, bases, size, i, line, k, n - 1);
      RunKeeps(states, ops, bases, size, n - 1);
      StepFrame(states[n - 1], bases, size, ops[n - 1], i, line);
      SameFrame(states[n - 1][i], states[n][i], line);
    }
  }

  lemma SameFrame(t: Table, t': Table, line: Line)
    requires FrameMoves(t, t', line) && line in t'.owned
    ensures FrameOf(t', line) == if line in t.owned then FrameOf(t, line) else NextFrame(t)
  {
  }

  /** A line that came back has the frame that was next at the node when it came back. */
  lemma FrameRegained(states: seq<seq<Table>>, ops: seq<Op>, bases: seq<nat>, size: nat,
                      i: nat, line: Line, g: nat, n: nat)
    requires IsRun(states, ops, bases, size) && g < n <= |ops| && i < |bases| && Regained(states, i, line, g, n)
    ensures i < |states[g]| && Owns(states[n], i, line) && FrameOf(states[n][i], line) == NextFrame(states[g][i])
  {
    hide SingleOwner, Apply, AssertsHold, FrameOf, FrameMoves, Conserved, NextFrame;
    FrameHeld(states, ops, bases, size, i, line, g + 1, n);
    RunKeeps(states, ops, bases, size, g);
    StepFrame(states[g], bases, size, ops[g], i, line);
    SameFrame(states[g][i], states[g + 1][i], line);
  }

  /** The last step that brought the line to node i, if it was not there all the time. */
  lemma {:induction false} LastRegain(states: seq<seq<Table>>, i: nat, line: Line, k: nat, n: nat) returns (g: nat)
    requires k <= n < |states| && Owns(states[n], i, line) && !Held(states, i, line, k, n)
    ensures k <= g < n && Regained(states, i, line, g, n)
    decreases n - k
  {
    assert k < n;
    if Held(states, i, line, k + 1, n) {
      g := k;
    } else {
      g := LastRegain(states, i, line, k + 1, n);
    }
  }

  // ---------------------------------------------------------------- the assertion on the carried frame

  /** Frame `carried` is the one node `o` named for the line, which it owned. */
  predicate Resolved(ts: seq<Table>, o: nat, line: Line, carried: Frame)
  {
    Owns(ts, o, line) && carried == FrameOf(ts[o], line)
  }

  lemma OwnersUnique(states: seq<seq<Table>>, ops: seq<Op>, bases: seq<nat>, size: nat, k: nat, i: nat, j: nat,
                     line: Line)
    requires IsRun(states, ops, bases, size) && k <= |ops| && Owns(states[k], i, line) && Owns(states[k], j, line)
    ensures i == j
  {
    hide AllConserved, Apply, AssertsHold;
    RunKeeps(states, ops, bases, size, k);
  }

  /** After any run an operation passes its assertions, but for the carried frame of a takeover. */
  lemma RunAsserts(states: seq<seq<Table>>, ops: seq<Op>, bases: seq<nat>, size: nat, op: Op)
    requires IsRun(states, ops, bases, size) && WellFormed(states[|ops|], op)
    ensures AssertsHold(states[|ops|], op) <==>
            (op.TakeOver? && op.line in states[|ops|][op.me].owned ==> FrameOf(states[|ops|][op.me], op.line) == op.carried)
  {
    hide Apply, AssertsHold, Conserved;
    RunKeeps(states, ops, bases, size, |ops|);
    NoAssertionFails(states[|ops|], bases, size, op);
    OwnedMapped(states[|ops|], bases, size, op.me, op.line);
  }

  lemma OwnedMapped(ts: seq<Table>, bases: seq<nat>, size: nat, i: nat, line: Line)
    requires AllConserved(ts, bases, size) && i < |ts|
    ensures |ts| == |bases| && (line in ts[i].owned <==> line in ts[i].frames)
  {
    assert Conserved(ts[i], bases[i], size);
  }

  /**
   A takeover whose frame was looked up in the r-th state passes its assertion if
   and only if, should the line have come back to the node since then, it was given
   the frame that is carried.
   */
  lemma TakeOverAsserts(states: seq<seq<Table>>, ops: seq<Op>, bases: seq<nat>, size: nat, op: Op, r: nat, o: nat)
    requires IsRun(states, ops, bases, size) && op.TakeOver? && WellFormed(states[|ops|], op)
    requires r <= |ops| && Resolved(states[r], o, op.line, op.carried)
    ensures |states[|ops|]| == |bases| && forall g :: 0 <= g <= |ops| ==> |states[g]| == |bases|
    ensures AssertsHold(states[|ops|], op) <==>
            forall g: nat :: r <= g < |ops| && Regained(states, op.me, op.line, g, |ops|) ==>
                               NextFrame(states[g][op.me]) == op.carried
  {
    hide Apply, AssertsHold, AllConserved, SingleOwner, FrameOf, NextFrame, Regained, Held;
    var n, i, line := |ops|, op.me, op.line;
    RunAsserts(states, ops, bases, size, op);
    forall g | 0 <= g <= n ensures |states[g]| == |bases| { Sized(states, ops, bases, size, g); }
    forall g: nat | r <= g < n && Regained(states, i, line, g, n)
      ensures Owns(states[n], i, line) && FrameOf(states[n][i], line) == NextFrame(states[g][i])
    {
      FrameRegained(states, ops, bases, size, i, line, g, n);
    }
    if Owns(states[n], i, line) {
      if Held(states, i, line, r, n) {
        FrameHeld(states, ops, bases, size, i, line, r, n);
        OwnersUnique(states, ops, bases, size, r, i, o, line);
        forall g: nat | r <= g < n ensures !Regained(states, i, line, g, n) { HeldAt(states, i, line, r, g, n); }
      } else {
        var g := LastRegain(states, i, line, r, n);
      }
    }
  }

  lemma HeldAt(states: seq<seq<Table>>, i: nat, line: Line, k: nat, g: nat, n: nat)
    requires k <= g < n < |states| && Held(states, i, line, k, n)
    ensures !Regained(states, i, line, g, n)
  {
  }

  lemma Sized(states: seq<seq<Table>>, ops: seq<Op>, bases: seq<nat>, size: nat, k: nat)
    requires IsRun(states, ops, bases, size) && k <= |ops|
    ensures |states[k]| == |bases|
  {
    hide Apply, AssertsHold;
    RunKeeps(states, ops, bases, size, k);
  }

  // ---------------------------------------------------------------- when the frame is the same again

  predicate OnTop(t: Table, f: Frame)
  {
    t.empty != [] && t.empty[|t.empty| - 1] == f
  }

  lemma BelowLast(t: Table, base: nat, size: nat, line: Line)
    requires Conserved(t, base, size) && size > 0 && line in t.frames
    ensures t.frames[line] < t.last
  {
    MappedFrame(t, line);
    var n := |t.frames| + |t.empty|;
    var k: nat :| k < n && t.frames[line] == Nth(base, size, k);
    NthRises(base, size, k, n);
  }

  lemma {:induction false} LastRises(states: seq<seq<Table>>, ops: seq<Op>, bases: seq<nat>, size: nat, i: nat, k: nat,
                                     n: nat)
    requires IsRun(states, ops, bases, size) && k <= n <= |ops| && i < |states[k]|
    ensures i < |states[n]| && states[k][i].last <= states[n][i].last
  {
    hide Apply, AssertsHold;
    if k < n {
      LastRises(states, ops, bases, size, i, k, n - 1);
      StepTouches(states[n - 1], size, ops[n - 1], i);
    }
  }

  /** A frame of the node itself is given again exactly when it lies on top of the free list. */
  lemma SameFrameAgain(states: seq<seq<Table>>, ops: seq<Op>, bases: seq<nat>, size: nat,
                       i: nat, line: Line, carried: Frame, r: nat, g: nat)
    requires IsRun(states, ops, bases, size) && r <= g <= |ops| && Resolved(states[r], i, line, carried)
    ensures i < |states[g]| && (NextFrame(states[g][i]) == carried <==> OnTop(states[g][i], carried))
  {
    hide Apply, AssertsHold, Conserved;
    RunKeeps(states, ops, bases, size, r);
    OwnedMapped(states[r], bases, size, i, line);
    assert Conserved(states[r][i], bases[i], size);
    BelowLast(states[r][i], bases[i], size, line);
    LastRises(states, ops, bases, size, i, r, g);
  }

  lemma TouchStays(ts: seq<Table>, bases: seq<nat>, size: nat, op: Op, o: nat, line: Line)
    requires SingleOwner(ts) && AllConserved(ts, bases, size) && WellFormed(ts, op) && AssertsHold(ts, op)
    requires Owns(ts, o, line) && (op.line == line ==> op.Touch?)
    ensures Owns(Apply(ts, size, op), o, line)
  {
    StepTouches(ts, size, op, o);
    assert Conserved(ts[o], bases[o], size);
    RealAddressConserves(ts[o], bases[o], size, op.line);
    hide Search, Conserved, RealAddress;
  }

  lemma {:induction false} StaysHeld(states: seq<seq<Table>>, ops: seq<Op>, bases: seq<nat>, size: nat,
                                     o: nat, line: Line, r: nat, n: nat)
    requires IsRun(states, ops, bases, size) && r <= n <= |ops| && Owns(states[r], o, line)
    requires forall k :: r <= k < n && ops[k].line == line ==> ops[k].Touch?
    ensures Held(states, o, line, r, n)
  {
    hide AllConserved, SingleOwner, Apply, AssertsHold, Owns;
    if r < n {
      StaysHeld(states, ops, bases, size, o, line, r, n - 1);
      RunKeeps(states, ops, bases, size, n - 1);
      TouchStays(states[n - 1], bases, size, ops[n - 1], o, line);
    }
  }

  /**
   With migration on, a takeover passes its assertion while nobody moves the line.  With
   migration off there are no takeovers.
   */
  lemma UnmovedAsserts(states: seq<seq<Table>>, ops: seq<Op>, bases: seq<nat>, size: nat, op: Op, r: nat, o: nat)
    requires IsRun(states, ops, bases, size) && op.TakeOver? && WellFormed(states[|ops|], op)
    requires r <= |ops| && Resolved(states[r], o, op.line, op.carried)
    requires forall k :: r <= k < |ops| && ops[k].line == op.line ==> ops[k].Touch?
    ensures AssertsHold(states[|ops|], op)
  {
    hide Apply, AssertsHold, AllConserved, SingleOwner, NextFrame;
    StaysHeld(states, ops, bases, size, o, op.line, r, |ops|);
    TakeOverAsserts(states, ops, bases, size, op, r, o);
    forall g: nat | r <= g < |ops| ensures !Regained(states, op.me, op.line, g, |ops|) {
      if Regained(states, op.me, op.line, g, |ops|) {
        OwnersUnique(states, ops, bases, size, |ops|, op.me, o, op.line);
      }
    }
  }

  /**
   The assertion can fail: node 0 owns line l at frame a, loses it to node 1, gives
   the frame to line m, and gets l back at a new frame; a request that carries the
   first frame is then refused.
   */
  lemma StaleFrame(a: nat, b: nat, size: nat, l: Line, m: Line)
    returns (states: seq<seq<Table>>, ops: seq<Op>, op: Op)
    requires size > 0 && l != m
    ensures IsRun(states, ops, [a, b], size) && |ops| == 4 && forall op :: op in ops ==> !op.TakeOver?
    ensures Resolved(states[1], 0, l, a)
    ensures op == TakeOver(0, l, a) && WellFormed(states[4], op) && !AssertsHold(states[4], op)
  {
    hide Apply, AssertsHold, NextFrame;
    ops := [Touch(0, l), Migrate(0, 1, l), Touch(0, m), Migrate(1, 0, l)];
    op := TakeOver(0, l, a);
    var t, u := Table(map[], {}, [], a), Table(map[], {}, [], b);
    var t1 := RealAddress(t, size, l);
    var t2, u2 := Release(t1, l), RealAddress(u, size, l);
    var t3 := RealAddress(t2, size, m);
    var t4, u4 := RealAddress(t3, size, l), Release(u2, l);
    states := [[t, u], [t1, u], [t2, u2], [t3, u2], [t4, u4]];
    Travels(a, size, l, m);
    FirstTouch(t, u, size, l);
    Moves(states[1], size, 0, 1, l);
    FirstTouch(t2, u2, size, m);
    Moves(states[3], size, 1, 0, l);
    hide RealAddress, Release;
    assert states[0] == Fresh([a, b]);
    Refused(states[4], l, a, size);
  }

  /** The tables of the node that loses line l and gets it back. */
  lemma Travels(a: nat, size: nat, l: Line, m: Line)
    requires l != m
    ensures var t1 := RealAddress(Table(map[], {}, [], a), size, l);
            && t1.owned == {l} && l in t1.frames && t1.frames[l] == a
            && var t2 := Release(t1, l);
               && t2 == Table(map[], {}, [a], a + size)
               && var t3 := RealAddress(t2, size, m);
                  && t3 == Table(map[m := a], {m}, [], a + size)
                  && var t4 := RealAddress(t3, size, l); l in t4.owned && l in t4.frames && t4.frames[l] == a + size
  {
    var t1 := RealAddress(Table(map[], {}, [], a), size, l);
    assert t1 == Table(map[l := a], {l}, [], a + size);
    var t2 := Release(t1, l);
    assert t2 == Table(map[], {}, [a], a + size);
  }

  lemma Refused(ts: seq<Table>, l: Line, a: Frame, size: nat)
    requires |ts| == 2 && l in ts[0].owned && l in ts[0].frames && ts[0].frames[l] == a + size && size > 0
    ensures !AssertsHold(ts, TakeOver(0, l, a))
  {
  }

  lemma FirstTouch(t0: Table, t1: Table, size: nat, line: Line)
    requires line !in t0.owned && line !in t1.owned
    ensures AssertsHold([t0, t1], Touch(0, line))
    ensures Apply([t0, t1], size, Touch(0, line)) == [RealAddress(t0, size, line), t1]
  {
    hide RealAddress;
    assert Search([t0, t1], 0, 2, line) == None && Search([t0, t1], 0, 1, line) == None;
  }

  lemma Moves(ts: seq<Table>, size: nat, i: nat, j: nat, line: Line)
    requires |ts| == 2 && i < 2 && j < 2 && i != j && line in ts[i].owned && line in ts[i].frames
    requires line !in ts[j].owned
    ensures AssertsHold(ts, Migrate(i, j, line))
    ensures Apply(ts, size, Migrate(i, j, line)) == ts[i := Release(ts[i], line)][j := RealAddress(ts[j], size, line)]
  {
    hide RealAddress, Release;
  }
}
