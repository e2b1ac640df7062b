/**
 Assembling the line that a waiting write sends to memory: the bytes it writes,
 the bytes a write buffer still held, and, for the bytes not enabled, the old
 line from a cache or from memory, whatever order these arrive in.
 */
module WriteMerge {
  import opened Wrappers
  import opened ReadMerge

  /** The data of the waiting write, `ack_old_mem_write` and `ack_response`. */
  datatype Store = Store(data: seq<Byte>, older: Option<seq<Byte>>, response: Option<Kind>)

  datatype Progress = Going(store: Store) | Failed

  predicate StoreOk(l: Store)
  {
    (l.older.Some? ==> |l.older.value| == |l.data|) && (l.response == Some(Dram) ==> l.older.Some?)
  }

  /** One acknowledgement with data; a second cache is a failed assertion. */
  function Take(l: Store, a: Ack): (r: Progress)
    requires StoreOk(l) && Fits(a, |l.data|)
    ensures r.Going? ==> StoreOk(r.store) && |r.store.data| == |l.data|
  {
    if l.response == Some(Cache) && a.kind == Cache then Failed
    else if !Accepts(l.response, a.kind) then Going(l)
    else if a.kind == Wb then Going(Store(Overlay(l.data, a.data, a.lanes, ENABLED), l.older, l.response))
    else
      var older := if l.response == Some(Dram) then None else l.older;
      if older.Some? then Failed
      else Going(Store(l.data, Some(a.data), if Rank(Some(a.kind)) > Rank(l.response) then Some(a.kind) else l.response))
  }

  function TakeAll(data: seq<Byte>, acks: seq<Ack>): (r: Progress)
    requires AllFit(acks, |data|)
    ensures r.Going? ==> StoreOk(r.store) && |r.store.data| == |data|
  {
    if acks == [] then Going(Store(data, None, None))
    else
      var r := TakeAll(data, acks[..|acks| - 1]);
      if r.Going? then Take(r.store, acks[|acks| - 1]) else Failed
  }

  /** The line sent to memory; without byte enables every byte counts as written. */
  function Complete(l: Store, enables: Option<seq<Byte>>): (r: seq<Byte>)
    requires StoreOk(l) && (enables.Some? ==> |enables.value| == |l.data|)
  {
    if enables.None? || l.older.None? then l.data
    else Overlay(l.data, l.older.value, enables.value, DISABLED)
  }

  // ---------------------------------------------------------------- what the line is

  /** The old line: a cache's if any cache answered, else memory's. */
  function Older(s: Sources, ks: seq<Kind>): Option<seq<Byte>>
  {
    if Cache in ks then Some(s.cache) else if Dram in ks then Some(s.dram) else None
  }

  function Written(data: seq<Byte>, s: Sources, ks: seq<Kind>): seq<Byte>
    requires Sized(s, |data|)
  {
    if Wb in ks then Overlay(data, s.wb, s.lanes, ENABLED) else data
  }

  function Expected(data: seq<Byte>, s: Sources, ks: seq<Kind>): Store
    requires Sized(s, |data|)
  {
    Store(Written(data, s, ks), Older(s, ks),
          if Cache in ks then Some(Cache) else if Dram in ks then Some(Dram) else None)
  }

  lemma OneMoreTaken(data: seq<Byte>, s: Sources, init: seq<Kind>, k: Kind)
    requires Sized(s, |data|)
    ensures var r := TakeAll(data, Acks(s, init));
            TakeAll(data, Acks(s, init + [k])) == if r.Going? then Take(r.store, From(s, k)) else Failed
  {
    assert Acks(s, init + [k])[..|init|] == Acks(s, init);
  }

  lemma TakeNext(data: seq<Byte>, s: Sources, init: seq<Kind>, k: Kind)
    requires Sized(s, |data|) && StoreOk(Expected(data, s, init))
    ensures Take(Expected(data, s, init), From(s, k)) ==
            if Cache in init && k == Cache then Failed else Going(Expected(data, s, init + [k]))
  {
    assert forall x :: x in init + [k] <==> x in init || x == k;
    if k == Wb && Wb in init {
      var once := Overlay(data, s.wb, s.lanes, ENABLED);
      assert Overlay(once, s.wb, s.lanes, ENABLED) == once;
    }
  }

  function Caches(ks: seq<Kind>): nat { multiset(ks)[Cache] }

  lemma CachesNext(init: seq<Kind>, k: Kind)
    ensures Caches(init + [k]) == Caches(init) + if k == Cache then 1 else 0
    ensures Caches(init) > 0 <==> Cache in init
  {
    assert multiset(init + [k]) == multiset(init) + multiset{k};
  }

  /**
   With at most one cache the state after any arrivals depends on who answered, not on the order; a
   second cache fails.
   */
  lemma {:induction false} TakesExactly(data: seq<Byte>, s: Sources, ks: seq<Kind>)
    requires Sized(s, |data|)
    ensures StoreOk(Expected(data, s, ks))
    ensures TakeAll(data, Acks(s, ks)) == if Caches(ks) <= 1 then Going(Expected(data, s, ks)) else Failed
  {
    if ks == [] {
      assert Acks(s, ks) == [];
    } else {
      var init, k := ks[..|ks| - 1], ks[|ks| - 1];
      assert ks == init + [k];
      TakesExactly(data, s, init);
      OneMoreTaken(data, s, init, k);
      TakeNext(data, s, init, k);
      CachesNext(init, k);
    }
  }

  /**
   The line sent to memory, byte by byte: where a byte is not enabled and an old
   line arrived, the old byte; elsewhere the write buffer's byte if its lane is
   enabled, else the byte written.
   */
  lemma LineWritten(data: seq<Byte>, s: Sources, ks: seq<Kind>, enables: Option<seq<Byte>>, i: nat)
    requires Sized(s, |data|) && Caches(ks) <= 1 && i < |data| && (enables.Some? ==> |enables.value| == |data|)
    ensures var r := TakeAll(data, Acks(s, ks));
            && r.Going? && |Complete(r.store, enables)| == |data|
            && Complete(r.store, enables)[i] ==
                 if enables.Some? && enables.value[i] == DISABLED && Cache in ks then s.cache[i]
                 else if enables.Some? && enables.value[i] == DISABLED && Dram in ks then s.dram[i]
                 else if Wb in ks && s.lanes[i] == ENABLED then s.wb[i]
                 else data[i]
  {
    TakesExactly(data, s, ks);
  }

  /** Two arrival orders of the same acknowledgements send the same line, or fail together. */
  lemma WriteOrderIndependent(data: seq<Byte>, s: Sources, ks: seq<Kind>, ls: seq<Kind>)
    requires Sized(s, |data|) && multiset(ks) == multiset(ls)
    ensures TakeAll(data, Acks(s, ks)) == TakeAll(data, Acks(s, ls))
  {
    TakesExactly(data, s, ks);
    TakesExactly(data, s, ls);
    forall k: Kind ensures k in ks <==> k in ls {
      assert k in ks <==> k in multiset(ks);
      assert k in ls <==> k in multiset(ls);
    }
  }

  // ---------------------------------------------------------------- the buffers in place

  class StoreBuffer {
    const data: array<Byte>
    var older: Option<seq<Byte>>
    var response: Option<Kind>

    ghost function Value(): Store
      reads this, data
    {
      Store(data[..], older, response)
    }

    constructor (data: array<Byte>)
      ensures this.data == data && Value() == Store(data[..], None, None)
    {
      this.data, older, response := data, None, None;
    }

    /** Handles one acknowledgement with data; `ok` is false where a run-time assertion fails. */
    method OnData(a: Ack) returns (ok: bool)
      requires StoreOk(Value()) && Fits(a, data.Length)
      modifies this, data
      ensures var r := Take(old(Value()), a); if ok then r == Going(Value()) else r == Failed
    {
      if response == Some(Cache) && a.kind == Cache {
        return false;
      }
      if Accepts(response, a.kind) {
        if a.kind != Wb {
          if response == Some(Dram) {
            older := None;
          }
          if older.Some? {
            return false;
          }
          older := Some(a.data);
          if Rank(Some(a.kind)) > Rank(response) {
            response := Some(a.kind);
          }
        } else {
          CopyLanes(data, a.data, a.lanes, ENABLED);
        }
      }
      return true;
    }

    /** Puts the old bytes under the bytes not enabled and enables all, before the line goes to memory. */
    method Concatenate(enables: array?<Byte>)
      requires StoreOk(Value()) && (enables != null ==> enables.Length == data.Length && enables != data)
      modifies data, enables
      ensures data[..] == Complete(old(Value()), if enables == null then None else Some(old(enables[..])))
      ensures enables != null ==>
                if older.Some? then forall i :: 0 <= i < enables.Length ==> enables[i] == ENABLED
                else enables[..] == old(enables[..])
    {
      if enables != null && older.Some? {
        for i := 0 to data.Length
          invariant forall j :: 0 <= j < i ==> enables[j] == ENABLED
          invariant forall j :: 0 <= j < i ==>
                                  data[j] == if old(enables[j]) == DISABLED then older.value[j] else old(data[j])
          invariant forall j :: i <= j < data.Length ==> enables[j] == old(enables[j]) && data[j] == old(data[j])
        {
          if enables[i] == DISABLED {
            data[i] := older.value[i];
          }
          enables[i] := ENABLED;
        }
      }
    }
  }
}
