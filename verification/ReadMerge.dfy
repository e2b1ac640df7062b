/**
 Assembling a cache line at the requester from the acknowledgements that carry
 data: from memory, from caches that hold the line, and from a write buffer that
 holds some of its bytes.  The acknowledgements arrive in any order.
 */
module ReadMerge {
  import opened Wrappers

  newtype Byte = x: int | 0 <= x < 256

  const ENABLED: Byte := 0xFF
  const DISABLED: Byte := 0x00

  /** Where the data of an acknowledgement comes from, by rising priority. */
  datatype Kind = Dram | Cache | Wb

  datatype Ack = Ack(kind: Kind, data: seq<Byte>, lanes: seq<Byte>)

  /** The line of the waiting transaction, `ack_response` and `ack_wb_lanes`. */
  datatype Line = Line(dest: seq<Byte>, response: Option<Kind>, wbLanes: Option<seq<Byte>>)

  /** A failed run-time assertion ends the program. */
  datatype Result = Ok(line: Line) | AssertionFailed

  function Rank(r: Option<Kind>): nat
  {
    match r
    case None => 0
    case Some(Dram) => 1
    case Some(Cache) => 2
    case Some(Wb) => 3
  }

  /** Responses with priority over what is there already are accepted, and memory behind a write buffer. */
  predicate Accepts(response: Option<Kind>, k: Kind)
  {
    response == None || (response == Some(Dram) && k != Dram) || k == Wb || (response == Some(Wb) && k == Dram)
  }

  /** Takes over the bytes of src whose lane has the given value. */
  function Overlay(dest: seq<Byte>, src: seq<Byte>, lanes: seq<Byte>, lane: Byte): (r: seq<Byte>)
    requires |dest| == |src| == |lanes|
    ensures |r| == |dest|
    ensures forall i :: 0 <= i < |r| ==> r[i] == if lanes[i] == lane then src[i] else dest[i]
  {
    seq(|dest|, i requires 0 <= i < |dest| => if lanes[i] == lane then src[i] else dest[i])
  }

  predicate Fits(a: Ack, n: nat)
  {
    |a.data| == n && (a.kind == Wb ==> |a.lanes| == n)
  }

  predicate WellFormed(l: Line)
  {
    && (l.wbLanes.Some? ==> |l.wbLanes.value| == |l.dest|)
    && (l.response == Some(Wb) <==> l.wbLanes.Some?)
  }

  /** One acknowledgement with data for a waiting read. */
  function Receive(l: Line, a: Ack): Result
    requires WellFormed(l) && Fits(a, |l.dest|)
  {
    if l.response == Some(Wb) && a.kind == Cache then AssertionFailed
    else if !Accepts(l.response, a.kind) then Ok(l)
    else if a.kind == Wb && l.wbLanes.Some? then AssertionFailed
    else
      var response := if Rank(Some(a.kind)) > Rank(l.response) then Some(a.kind) else l.response;
      if a.kind == Wb then Ok(Line(Overlay(l.dest, a.data, a.lanes, ENABLED), response, Some(a.lanes)))
      else if l.response == Some(Wb) then Ok(Line(Overlay(l.dest, a.data, l.wbLanes.value, DISABLED), response, l.wbLanes))
      else Ok(Line(a.data, response, l.wbLanes))
  }

  predicate AllFit(acks: seq<Ack>, n: nat)
  {
    forall i :: 0 <= i < |acks| ==> Fits(acks[i], n)
  }

  /** The acknowledgements of one read, in order of arrival. */
  function ReceiveAll(initial: seq<Byte>, acks: seq<Ack>): (r: Result)
    requires AllFit(acks, |initial|)
    ensures r.Ok? ==> WellFormed(r.line) && |r.line.dest| == |initial|
  {
    if acks == [] then Ok(Line(initial, None, None))
    else
      var r := ReceiveAll(initial, acks[..|acks| - 1]);
      if r.Ok? then Receive(r.line, acks[|acks| - 1]) else AssertionFailed
  }

  // ---------------------------------------------------------------- what the line should be

  /** The data all acknowledgements of one kind agree on. */
  datatype Sources = Sources(dram: seq<Byte>, cache: seq<Byte>, wb: seq<Byte>, lanes: seq<Byte>)

  predicate Sized(s: Sources, n: nat)
  {
    && |s.dram| == |s.cache| == |s.wb| == |s.lanes| == n
    && forall i :: 0 <= i < n ==> s.lanes[i] == ENABLED || s.lanes[i] == DISABLED
  }

  function From(s: Sources, k: Kind): Ack
  {
    match k
    case Dram => Ack(Dram, s.dram, [])
    case Cache => Ack(Cache, s.cache, [])
    case Wb => Ack(Wb, s.wb, s.lanes)
  }

  function Acks(s: Sources, ks: seq<Kind>): (r: seq<Ack>)
    ensures |r| == |ks| && forall i :: 0 <= i < |r| ==> r[i] == From(s, ks[i])
  {
    seq(|ks|, i requires 0 <= i < |ks| => From(s, ks[i]))
  }

  /** The write buffer's byte where its lane is enabled, else the cache's, else memory's, else what was there. */
  function Merged(initial: seq<Byte>, s: Sources, ks: seq<Kind>): (r: seq<Byte>)
    requires Sized(s, |initial|)
  {
    seq(|initial|, i requires 0 <= i < |initial| =>
      if Wb in ks && s.lanes[i] == ENABLED then s.wb[i]
      else if Cache in ks then s.cache[i]
      else if Dram in ks then s.dram[i]
      else initial[i])
  }

  /**
   The arrival orders the merge copes with: nothing but memory follows a write
   buffer, and not even memory when a cache answered before the write buffer.
   */
  predicate Orderly(ks: seq<Kind>)
  {
    forall i, j :: 0 <= i < j < |ks| && ks[i] == Wb ==> ks[j] == Dram && Cache !in ks[..i]
  }

  /** The response the requester remembers: the best kind seen. */
  function Best(ks: seq<Kind>): Option<Kind>
  {
    if Wb in ks then Some(Wb) else if Cache in ks then Some(Cache) else if Dram in ks then Some(Dram) else None
  }

  lemma OneMore(initial: seq<Byte>, s: Sources, init: seq<Kind>, k: Kind)
    requires Sized(s, |initial|)
    ensures var r := ReceiveAll(initial, Acks(s, init));
            ReceiveAll(initial, Acks(s, init + [k])) == if r.Ok? then Receive(r.line, From(s, k)) else AssertionFailed
  {
    assert Acks(s, init + [k])[..|init|] == Acks(s, init);
  }

  /** On every orderly arrival order the assembled line is the merged line. */
  lemma {:induction false} OrderlyMerges(initial: seq<Byte>, s: Sources, ks: seq<Kind>)
    requires Sized(s, |initial|) && Orderly(ks)
    ensures ReceiveAll(initial, Acks(s, ks))
            == Ok(Line(Merged(initial, s, ks), Best(ks), if Wb in ks then Some(s.lanes) else None))
  {
    if ks != [] {
      var init, k := ks[..|ks| - 1], ks[|ks| - 1];
      assert Orderly(init) by {
        forall i, j | 0 <= i < j < |init| && init[i] == Wb ensures init[j] == Dram && Cache !in init[..i] {
          assert ks[i] == Wb && ks[j] == init[j] && init[..i] == ks[..i];
        }
      }
      OrderlyMerges(initial, s, init);
      assert ks == init + [k];
      OneMore(initial, s, init, k);
      LastAck(initial, s, init, k);
    } else {
      assert Merged(initial, s, ks) == initial;
    }
  }

  lemma LastAck(initial: seq<Byte>, s: Sources, init: seq<Kind>, k: Kind)
    requires Sized(s, |initial|) && Orderly(init + [k])
    ensures var l := Line(Merged(initial, s, init), Best(init), if Wb in init then Some(s.lanes) else None);
            var ks := init + [k];
            Receive(l, From(s, k)) == Ok(Line(Merged(initial, s, ks), Best(ks), if Wb in ks then Some(s.lanes) else None))
  {
    var ks := init + [k];
    assert forall x :: x in ks <==> x in init || x == k;
    if Wb in init {
      var i :| 0 <= i < |init| && init[i] == Wb;
      assert ks[i] == Wb && ks[|init|] == k && ks[..i] == init[..i];
      forall j | 0 <= j < |init| ensures init[j] != Cache {
        assert ks[j] == init[j];
        if j < i { assert ks[..i][j] == init[j]; }
      }
      assert k == Dram && Cache !in init;
    }
    var l := Line(Merged(initial, s, init), Best(init), if Wb in init then Some(s.lanes) else None);
    var r := Receive(l, From(s, k));
    assert r.Ok?;
    assert r.line.dest == Merged(initial, s, ks);
  }

  /** Two orderly arrival orders of the same acknowledgements assemble the same line. */
  lemma OrderIndependent(initial: seq<Byte>, s: Sources, ks: seq<Kind>, ls: seq<Kind>)
    requires Sized(s, |initial|) && Orderly(ks) && Orderly(ls) && multiset(ks) == multiset(ls)
    ensures ReceiveAll(initial, Acks(s, ks)) == ReceiveAll(initial, Acks(s, ls))
  {
    OrderlyMerges(initial, s, ks);
    OrderlyMerges(initial, s, ls);
    forall k: Kind ensures k in ks <==> k in ls {
      assert k in ks <==> k in multiset(ks);
      assert k in ls <==> k in multiset(ls);
    }
  }

  /** The two situations the design provides for are orderly in every arrival order. */
  lemma ExpectedOrderly(ks: seq<Kind>)
    requires Wb !in ks || (Cache !in ks && multiset(ks)[Wb] == 1)
    ensures Orderly(ks)
  {
    forall i, j | 0 <= i < j < |ks| && ks[i] == Wb ensures ks[j] == Dram && Cache !in ks[..i] {
      if ks[j] == Wb { Twice(ks, i, j); }
    }
  }

  lemma Twice(ks: seq<Kind>, i: nat, j: nat)
    requires i < j < |ks| && ks[i] == ks[j]
    ensures multiset(ks)[ks[i]] >= 2
  {
    assert ks == ks[..j] + [ks[j]] + ks[j + 1..];
    assert ks[..j][i] == ks[i];
    assert multiset(ks) == multiset(ks[..j]) + multiset{ks[j]} + multiset(ks[j + 1..]);
  }

  // ---------------------------------------------------------------- exactly those orders

  /** The orderly arrival orders are exactly those on which every merge comes out right. */
  lemma ExactlyOrderly(ks: seq<Kind>)
    ensures Orderly(ks) <==>
            forall initial: seq<Byte>, s: Sources :: Sized(s, |initial|) ==>
              ReceiveAll(initial, Acks(s, ks)).Ok? && ReceiveAll(initial, Acks(s, ks)).line.dest == Merged(initial, s, ks)
  {
    if Orderly(ks) {
      forall initial: seq<Byte>, s: Sources | Sized(s, |initial|)
        ensures ReceiveAll(initial, Acks(s, ks)).Ok?
        ensures ReceiveAll(initial, Acks(s, ks)).line.dest == Merged(initial, s, ks)
      {
        OrderlyMerges(initial, s, ks);
      }
    } else {
      Disorder(ks);
      assert Sized(Witness(), |[0 as Byte]|);
      assert Cache in ks ==> Merged([0], Witness(), ks)[0] == 2;
    }
  }

  /** One byte, not in the write buffer, that memory and the caches hold differently. */
  function Witness(): Sources { Sources([1], [2], [3], [DISABLED]) }

  /** On any other order the witness fails an assertion or leaves memory's stale byte in place of the cache's. */
  lemma {:induction false} Disorder(ks: seq<Kind>)
    requires !Orderly(ks)
    ensures var r := ReceiveAll([0], Acks(Witness(), ks)); r == AssertionFailed || (r == Stale() && Cache in ks)
  {
    var s := Witness();
    var init, k := ks[..|ks| - 1], ks[|ks| - 1];
    assert ks == init + [k];
    OneMore([0], s, init, k);
    hide ReceiveAll, Receive, Orderly, Acks;
    if Orderly(init) {
      OrderlyMerges([0], s, init);
      LastDisorders(init, k);
      FirstDisorder(init, k);
    } else {
      Disorder(init);
      StaleStays(k);
    }
  }

  /** The witness line with memory's byte where the cache's should be. */
  function Stale(): Result { Ok(Line([1], Some(Wb), Some([DISABLED]))) }

  lemma StaleStays(k: Kind)
    ensures var r := Receive(Stale().line, From(Witness(), k)); r == AssertionFailed || r == Stale()
  {
    assert Overlay([1], [1], [DISABLED], DISABLED) == [1];
  }

  lemma FirstDisorder(init: seq<Kind>, k: Kind)
    requires Wb in init && (k == Dram ==> Cache in init)
    ensures var r := Receive(Line(Merged([0], Witness(), init), Best(init), Some([DISABLED])), From(Witness(), k));
            r == AssertionFailed || (r == Stale() && Cache in init)
  {
    if k == Dram { assert Overlay(Merged([0], Witness(), init), [1], [DISABLED], DISABLED) == [1]; }
  }

  /** What the last acknowledgement must be when it is the first to break the order. */
  lemma LastDisorders(init: seq<Kind>, k: Kind)
    requires Orderly(init) && !Orderly(init + [k])
    ensures Wb in init && (k == Dram ==> Cache in init)
  {
    var ks := init + [k];
    var i, j :| 0 <= i < j < |ks| && ks[i] == Wb && !(ks[j] == Dram && Cache !in ks[..i]);
    assert ks[..i] == init[..i] && init[i] == Wb;
    assert forall m :: 0 <= m < i ==> ks[..i][m] == init[m];
  }

  /** The order that loses a cache's bytes: a cache, then a write buffer, then memory. */
  lemma MemoryOverwritesCache()
    ensures var r := ReceiveAll([0], Acks(Witness(), [Cache, Wb, Dram]));
            r.Ok? && r.line.dest == [1] && Merged([0], Witness(), [Cache, Wb, Dram]) == [2]
  {
    var ks := [Cache, Wb, Dram];
    assert ks[1] == Wb && ks[2] == Dram && ks[..1][0] == Cache;
    assert !Orderly(ks);
    var s := Witness();
    assert Acks(s, ks)[..2] == Acks(s, [Cache, Wb]);
    assert Acks(s, [Cache, Wb])[..1] == Acks(s, [Cache]);
    assert Acks(s, [Cache])[..0] == [];
    assert ReceiveAll([0], []) == Ok(Line([0], None, None));
    assert ReceiveAll([0], Acks(s, [Cache])) == Ok(Line([2], Some(Cache), None));
    assert Overlay([2], [3], [DISABLED], ENABLED) == [2];
    assert ReceiveAll([0], Acks(s, [Cache, Wb])) == Ok(Line([2], Some(Wb), Some([DISABLED])));
    assert Overlay([2], [1], [DISABLED], DISABLED) == [1];
  }

  // ---------------------------------------------------------------- the line buffer in place

  /** Copies the bytes of src whose lane has the given value. */
  method CopyLanes(dest: array<Byte>, src: seq<Byte>, lanes: seq<Byte>, lane: Byte)
    requires |src| == |lanes| == dest.Length
    modifies dest
    ensures dest[..] == Overlay(old(dest[..]), src, lanes, lane)
  {
    var n := dest.Length;
    for i := 0 to n
      invariant forall j :: 0 <= j < i ==> dest[j] == if lanes[j] == lane then src[j] else old(dest[j])
      invariant forall j :: i <= j < n ==> dest[j] == old(dest[j])
    {
      if lanes[i] == lane {
        dest[i] := src[i];
      }
    }
  }

  class LineBuffer {
    const dest: array<Byte>
    var response: Option<Kind>
    var wbLanes: Option<seq<Byte>>

    ghost function Value(): Line
      reads this, dest
    {
      Line(dest[..], response, wbLanes)
    }

    /** The buffer of the waiting transaction, before any acknowledgement. */
    constructor (dest: array<Byte>)
      ensures this.dest == dest && Value() == Line(dest[..], None, None)
    {
      this.dest, response, wbLanes := dest, None, None;
    }

    method CopyAll(src: seq<Byte>)
      requires |src| == dest.Length
      modifies dest
      ensures dest[..] == src
    {
      for i := 0 to dest.Length
        invariant dest[..i] == src[..i]
      {
        dest[i] := src[i];
      }
    }

    /** Handles one acknowledgement with data; `ok` is false where a run-time assertion fails. */
    method OnData(a: Ack) returns (ok: bool)
      requires WellFormed(Value()) && Fits(a, dest.Length)
      modifies this, dest
      ensures var r := Receive(old(Value()), a); if ok then r == Ok(Value()) else r == AssertionFailed
    {
      if response == Some(Wb) && a.kind == Cache {
        return false;
      }
      if Accepts(response, a.kind) {
        if a.kind == Wb {
          if wbLanes.Some? {
            return false;
          }
          CopyLanes(dest, a.data, a.lanes, ENABLED);
          wbLanes := Some(a.lanes);
        } else if response == Some(Wb) {
          CopyLanes(dest, a.data, wbLanes.value, DISABLED);
        } else {
          CopyAll(a.data);
        }
        if Rank(Some(a.kind)) > Rank(response) {
          response := Some(a.kind);
        }
      }
      return true;
    }
  }
}
