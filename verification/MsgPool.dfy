/**
 The message pool: payloads given back are kept in a doubly linked chain of
 access nodes that a cursor splits in two.  The nodes before the cursor are
 empty, the nodes from the cursor on hold free payloads.  No node is ever
 unlinked, so a node is created only when no empty one is left.
 */
module MsgPool {

  class Payload {
    var refCount: int

    constructor ()
      ensures refCount == 0
    {
      refCount := 0;
    }

    method Acquire()
      modifies this
      ensures refCount == old(refCount) + 1
    {
      refCount := refCount + 1;
    }
  }

  class Access {
    var trans: Payload
    var next: Access?
    var prev: Access?

    constructor (trans: Payload, next: Access?)
      ensures this.trans == trans && this.next == next && prev == null
    {
      this.trans, this.next, prev := trans, next, null;
    }
  }

  /** The largest of the counts seen so far. */
  function Peak(history: seq<nat>): nat
  {
    if history == [] then 0
    else if history[|history| - 1] > Peak(history[..|history| - 1]) then history[|history| - 1]
    else Peak(history[..|history| - 1])
  }

  lemma {:induction false} PeakIsMaximum(history: seq<nat>)
    ensures forall i :: 0 <= i < |history| ==> history[i] <= Peak(history)
    ensures history != [] ==> Peak(history) in history
  {
    if history != [] {
      var init := history[..|history| - 1];
      PeakIsMaximum(init);
      forall i | 0 <= i < |history| ensures history[i] <= Peak(history) {
        if i < |init| { assert init[i] == history[i]; }
      }
      if Peak(history) != history[|history| - 1] { assert Peak(init) in init; }
    }
  }

  lemma PeakGrows(history: seq<nat>, n: nat)
    ensures Peak(history + [n]) == if n > Peak(history) then n else Peak(history)
  {
    assert (history + [n])[..|history|] == history;
  }

  class Pool {
    var freeList: Access?
    var empties: Access?
    ghost var chain: seq<Access>          // all nodes, in link order
    ghost var cut: nat                    // how many of them lie before the cursor
    ghost var free: seq<Payload>          // the free payloads, the one given back last in front
    ghost var inUse: set<Payload>         // payloads handed out and not yet given back
    ghost var history: seq<nat>           // number of free payloads after each operation so far

    /** The nodes are all linked both ways, in chain order. */
    ghost predicate Linked()
      reads this, chain
    {
      && (forall i, j :: 0 <= i < j < |chain| ==> chain[i] != chain[j])
      && (forall i {:trigger chain[i].next} :: 0 <= i < |chain| ==>
            chain[i].next == if i + 1 < |chain| then chain[i + 1] else null)
      && (forall i {:trigger chain[i].prev} :: 0 <= i < |chain| ==> chain[i].prev == if i > 0 then chain[i - 1] else null)
    }

    /** The cursor: the nodes before it are empty, the others hold the free payloads. */
    ghost predicate Split()
      reads this, chain
    {
      && cut <= |chain|
      && freeList == (if cut < |chain| then chain[cut] else null)
      && empties == (if cut > 0 then chain[cut - 1] else null)
      && |free| == |chain| - cut
      && (forall k :: cut <= k < |chain| ==> chain[k].trans == free[k - cut])
    }

    /** No payload is free twice, or free and in use; there are as many nodes as were ever needed at once. */
    ghost predicate Accounted()
      reads this
    {
      && (forall i, j :: 0 <= i < j < |free| ==> free[i] != free[j])
      && (forall i :: 0 <= i < |free| ==> free[i] !in inUse)
      && |chain| == Peak(history)
    }

    ghost predicate Valid()
      reads this, chain
    {
      Linked() && Split() && Accounted()
    }

    /** The payloads in the pool have no reference; an extra release may have made the count negative. */
    ghost predicate Idle()
      reads this, free
    {
      forall i :: 0 <= i < |free| ==> free[i].refCount <= 0
    }

    constructor ()
      ensures Valid() && free == [] && inUse == {} && history == []
    {
      freeList, empties, chain, cut, free, inUse, history := null, null, [], 0, [], {}, [];
    }

    /** Moves the cursor past the top node, or makes a payload when none is free. */
    method Pop() returns (ptr: Payload)
      requires Valid()
      requires forall p :: p in inUse ==> allocated(p)
      modifies this
      ensures Valid() && chain == old(chain)
      ensures ptr !in old(inUse) && inUse == old(inUse) + {ptr}
      ensures old(free) != [] ==> ptr == old(free)[0] && free == old(free)[1..]
      ensures old(free) == [] ==> fresh(ptr) && free == [] && ptr.refCount == 0
      ensures history == old(history) + [|free|]
    {
      if freeList != null {
        ptr := freeList.trans;
        empties := freeList;
        freeList := freeList.next;
        cut := cut + 1;
        free := free[1..];
      } else {
        ptr := new Payload();
        assert forall i :: 0 <= i < |chain| ==> unchanged(chain[i]);
      }
      inUse := inUse + {ptr};
      PeakGrows(history, |free|);
      history := history + [|free|];
    }

    /**
     Hands out the free payload on top of the stack, or a new one; never one in
     use.  Its reference count is zero.  The chain itself is untouched.
     */
    method Allocate() returns (ptr: Payload)
      requires Valid() && Idle()
      requires forall p :: p in inUse ==> allocated(p)
      modifies this, free
      ensures Valid() && chain == old(chain)
      ensures ptr !in old(inUse) && inUse == old(inUse) + {ptr} && ptr.refCount == 0
      ensures old(free) != [] ==> ptr == old(free)[0] && free == old(free)[1..]
      ensures old(free) == [] ==> fresh(ptr) && free == []
      ensures forall p :: p in old(free) && p != ptr ==> p.refCount == old(p.refCount)
      ensures history == old(history) + [|free|]
    {
      ptr := Pop();
      if ptr.refCount < 0 {
        while ptr.refCount != 0
          invariant ptr.refCount <= 0
          modifies ptr
          decreases -ptr.refCount
        {
          ptr.Acquire();
        }
      }
    }

    /** Puts a payload that is in use back on top of the stack, in an empty node if there is one. */
    method Release(trans: Payload)
      requires Valid() && trans in inUse
      modifies this, chain
      ensures Valid() && free == [trans] + old(free) && inUse == old(inUse) - {trans}
      ensures history == old(history) + [|free|]
      ensures if |old(free)| < |old(chain)| then chain == old(chain)
              else |chain| == |old(chain)| + 1 && fresh(chain[0]) && chain == [chain[0]] + old(chain)
    {
      if empties == null {
        Prepend(trans);
      }
      Push(trans);
      PeakGrows(history, |free|);
      inUse := inUse - {trans};
      history := history + [|free|];
    }

    /** Moves the cursor back onto the last empty node, which takes the payload. */
    method Push(trans: Payload)
      requires Linked() && Split() && empties != null
      modifies this`freeList, this`empties, this`cut, this`free, chain
      ensures Linked() && Split() && free == [trans] + old(free)
    {
      freeList := empties;
      freeList.trans := trans;
      empties := freeList.prev;
      cut := cut - 1;
      free := [trans] + free;
    }

    /** A new empty node at the front of a chain without empty nodes. */
    method Prepend(trans: Payload)
      requires Linked() && Split() && empties == null
      modifies this`empties, this`chain, this`cut, chain
      ensures |chain| == |old(chain)| + 1 && fresh(chain[0]) && chain == [chain[0]] + old(chain)
      ensures cut == 1 && Linked() && Split() && empties != null && free == old(free)
    {
      empties := new Access(trans, freeList);
      if freeList != null {
        freeList.prev := empties;
      }
      chain := [empties] + chain;
      cut := 1;
    }
  }

  /** Giving a payload back and asking for one returns the same payload and restores the stack. */
  method GiveAndTake(pool: Pool, trans: Payload) returns (again: Payload)
    requires pool.Valid() && pool.Idle() && trans in pool.inUse && trans.refCount <= 0
    requires forall p :: p in pool.inUse ==> allocated(p)
    modifies pool, pool.chain, pool.free, trans
    ensures pool.Valid() && again == trans && pool.free == old(pool.free) && pool.inUse == old(pool.inUse)
  {
    pool.Release(trans);
    again := pool.Allocate();
  }
}
