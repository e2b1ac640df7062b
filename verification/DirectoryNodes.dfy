/**
 The directory as the source keeps it: one object per node, linked into a ring.
 Every method equals the corresponding operation on the nodes' tables.
 */
module DirectoryNodes {
  import opened Requests
  import opened Wrappers
  import opened Directory

  class Sri {
    const node: nat
    const dataLength: nat
    var addressMap: map<Line, Frame>
    var addressTable: set<Line>
    var emptyAddr: seq<Frame>
    var lastAddr: Frame
    var next: Sri

    ghost function Value(): Table
      reads this
    {
      Table(addressMap, addressTable, emptyAddr, lastAddr)
    }

    /** A new node joins the ring right after `prev`; the first one is a ring of its own. */
    constructor (prev: Sri?, node: nat, dataLength: nat, dramBase: Frame)
      modifies prev
      ensures this.node == node && this.dataLength == dataLength
      ensures Value() == Table(map[], {}, [], dramBase)
      ensures prev == null ==> next == this
      ensures prev != null ==> prev.next == this && next == old(prev.next) && prev.Value() == old(prev.Value())
    {
      this.node, this.dataLength := node, dataLength;
      addressMap, addressTable, emptyAddr, lastAddr := map[], {}, [], dramBase;
      next := this;
      new;
      if prev != null {
        next := prev.next;
        prev.next := this;
      }
    }

    method GetRealAddress(addr: Line) returns (a: Frame)
      modifies `addressMap, `addressTable, `emptyAddr, `lastAddr
      ensures Value() == RealAddress(old(Value()), dataLength, addr)
      ensures addr in addressMap && a == addressMap[addr] == FrameOf(old(Value()), addr)
    {
      if addr in addressMap {
        a := addressMap[addr];
      } else {
        if |emptyAddr| > 0 {
          a := emptyAddr[|emptyAddr| - 1];
          emptyAddr := emptyAddr[..|emptyAddr| - 1];
        } else {
          a := lastAddr;
          lastAddr := lastAddr + dataLength;
        }
        addressTable := addressTable + {addr};
        addressMap := addressMap[addr := a];
      }
    }

    /** The node disowns a line and keeps its frame for later. */
    method Disown(addr: Line)
      requires addr in addressMap
      modifies `addressMap, `addressTable, `emptyAddr
      ensures Value() == Release(old(Value()), addr)
    {
      addressTable := addressTable - {addr};
      var a := addressMap[addr];
      addressMap := addressMap - {addr};
      emptyAddr := emptyAddr + [a];
    }

    /** Owner lookup of a new access; the node itself becomes the owner of an orphan. */
    method Access(addr: Line, ghost ring: seq<Sri>) returns (owner: nat, realAddr: Frame)
      requires Ring(ring, dataLength) && node < |ring| && ring[node] == this
      modifies ring
      ensures Ring(ring, dataLength) && Values(ring) == Apply(old(Values(ring)), dataLength, Touch(node, addr))
      ensures owner < |ring| && addr in ring[owner].addressMap && realAddr == ring[owner].addressMap[addr]
      ensures owner == (var r := Search(old(Values(ring)), node, 0, addr); if r.Some? then r.value else node)
    {
      ghost var ts := Values(ring);
      var adrt, more := this, true;
      ghost var k := 0;
      while more
        invariant k <= |ring| && (more <==> k < |ring|) && adrt == ring[Round(node, k, |ring|)]
        invariant Ring(ring, dataLength) && Values(ring) == ts
        invariant Search(ts, node, 0, addr) == Search(ts, node, k, addr)
        decreases |ring| - k
      {
        if addr in adrt.addressTable {
          owner := adrt.node;
          realAddr := Grant(adrt, addr, ring);
          return;
        }
        adrt := adrt.next;
        k := k + 1;
        more := adrt != this;
      }
      owner := node;
      realAddr := Grant(this, addr, ring);
    }

    static method Grant(s: Sri, addr: Line, ghost ring: seq<Sri>) returns (a: Frame)
      requires Ring(ring, s.dataLength) && s.node < |ring| && ring[s.node] == s
      modifies s`addressMap, s`addressTable, s`emptyAddr, s`lastAddr
      ensures Ring(ring, s.dataLength)
      ensures Values(ring) == RealAddressAt(old(Values(ring)), s.dataLength, s.node, addr)
      ensures addr in s.addressMap && a == s.addressMap[addr] == FrameOf(old(Values(ring)[s.node]), addr)
    {
      a := s.GetRealAddress(addr);
    }

    /** A probe for a write by another node has been answered: the writer becomes the owner. */
    method HandOver(addr: Line, destNode: nat, ghost ring: seq<Sri>)
      requires Ring(ring, dataLength) && node < |ring| && ring[node] == this
      requires destNode < |ring| && destNode != node
      requires Directory.AssertsHold(Values(ring), Migrate(node, destNode, addr))
      modifies ring
      ensures Ring(ring, dataLength)
      ensures Values(ring) == Apply(old(Values(ring)), dataLength, Migrate(node, destNode, addr))
    {
      ghost var ts := Values(ring);
      if addr in addressTable {
        assert addr in ts[node].frames;
        Disown(addr);
        ghost var freed := Values(ring);
        assert freed == ReleaseAt(ts, node, addr);
        var adrt := next;
        ghost var k, far := 1, if destNode >= node then destNode - node else destNode + |ring| - node;
        while adrt.node != destNode
          invariant 1 <= k <= far < |ring| && adrt == ring[Round(node, k, |ring|)]
          invariant Ring(ring, dataLength) && Values(ring) == freed
          decreases |ring| - k
        {
          adrt := adrt.next;
          k := k + 1;
        }
        var _ := Grant(adrt, addr, ring);
      }
    }

    /**
     An invalidation found a dirty copy here: this node takes the line over before
     writing it back to the frame `carried` by the answer, or to a frame of its own.
     The result is false when an assertion on the way fails.
     */
    method TakeLine(addr: Line, carried: Frame, ghost ring: seq<Sri>) returns (ok: bool)
      requires Ring(ring, dataLength) && node < |ring| && ring[node] == this
      modifies ring
      ensures ok <==> Directory.AssertsHold(old(Values(ring)), TakeOver(node, addr, carried))
      ensures ok ==> Ring(ring, dataLength)
      ensures ok ==> Values(ring) == Apply(old(Values(ring)), dataLength, TakeOver(node, addr, carried))
    {
      ghost var ts := Values(ring);
      var adrt := next;
      ghost var k := 1;
      SearchFinds(ts, node, 1, addr);
      while adrt != this
        invariant 1 <= k <= |ring| && adrt == ring[Round(node, k, |ring|)]
        invariant Ring(ring, dataLength) && Values(ring) == ts
        invariant Search(ts, node, 1, addr) == Search(ts, node, k, addr)
        decreases |ring| - k
      {
        if addr in adrt.addressTable {
          assert ts[adrt.node].owned == adrt.addressTable && ts[adrt.node].frames == adrt.addressMap;
          if addr !in adrt.addressMap { return false; }
          adrt.Disown(addr);
          break;
        }
        adrt := adrt.next;
        k := k + 1;
      }
      ghost var freed := Values(ring);
      assert freed == (var r := Search(ts, node, 1, addr); if r.Some? then ReleaseAt(ts, r.value, addr) else ts);
      assert freed[node] == ts[node] && ts[node].owned == addressTable;
      var owned := addr in addressTable;
      var a := Grant(this, addr, ring);
      ok := !owned || a == carried;
    }

    /** A paused request popped at a node that lost the line: who owns it now? */
    method FindOwner(addr: Line, ghost ring: seq<Sri>) returns (owner: Option<nat>, realAddr: Frame)
      requires Ring(ring, dataLength) && node < |ring| && ring[node] == this
      ensures owner == Search(Values(ring), node, 1, addr)
      ensures owner.Some? && owner.value < |ring| && addr in ring[owner.value].addressMap ==>
                realAddr == ring[owner.value].addressMap[addr]
    {
      owner, realAddr := None, 0;
      var adrt := next;
      ghost var k := 1;
      while adrt != this
        invariant 1 <= k <= |ring| && adrt == ring[Round(node, k, |ring|)]
        invariant Search(Values(ring), node, 1, addr) == Search(Values(ring), node, k, addr)
        decreases |ring| - k
      {
        if addr in adrt.addressTable {
          owner := Some(adrt.node);
          if addr in adrt.addressMap { realAddr := adrt.addressMap[addr]; }
          return;
        }
        adrt := adrt.next;
        k := k + 1;
      }
    }
  }

  /** The nodes in ring order, each numbered by its place. */
  ghost predicate Ring(ring: seq<Sri>, size: nat)
    reads ring
  {
    && |ring| > 0
    && (forall i, j :: 0 <= i < j < |ring| ==> ring[i] != ring[j])
    && (forall i :: 0 <= i < |ring| ==> ring[i].node == i && ring[i].dataLength == size)
    && (forall i :: 0 <= i < |ring| ==> ring[i].next == ring[if i + 1 == |ring| then 0 else i + 1])
  }

  ghost function Values(ring: seq<Sri>): seq<Table>
    reads ring
  {
    seq(|ring|, i requires 0 <= i < |ring| reads ring => ring[i].Value())
  }

  /** Building the ring node by node, each constructed with the last one as its predecessor. */
  method Build(bases: seq<Frame>, size: nat) returns (ring: seq<Sri>)
    requires |bases| > 0
    ensures fresh(ring) && Ring(ring, size) && Values(ring) == Fresh(bases)
  {
    var s := new Sri(null, 0, size, bases[0]);
    ring := [s];
    while |ring| < |bases|
      invariant 1 <= |ring| <= |bases| && fresh(ring) && Ring(ring, size)
      invariant forall i :: 0 <= i < |ring| ==> ring[i].Value() == Table(map[], {}, [], bases[i])
    {
      s := new Sri(ring[|ring| - 1], |ring|, size, bases[|ring|]);
      ring := ring + [s];
    }
  }
}
