/**
 The protocol handlers as the source keeps them: objects whose fields the
 message callbacks update in place.  Each handler equals the corresponding
 function of the transition system, messages sent included.
 */
module FabricNodes {
  import opened Requests
  import opened Fabric

  /** The home side of the crossbar. */
  class Crossbar {
    const node: Node
    const totalSockets: nat
    var reqBusy: bool
    var reqQueue: seq<Message>

    ghost function Value(): Home
      reads this
    {
      Home(reqBusy, reqQueue)
    }

    /** The source leaves `req_busy` uninitialised; a home starts idle here. */
    constructor (node: Node, totalSockets: nat)
      ensures this.node == node && this.totalSockets == totalSockets && Value() == Home(false, [])
    {
      this.node, this.totalSockets := node, totalSockets;
      reqBusy, reqQueue := false, [];
    }

    method ReqIncoming(r: Message) returns (sent: multiset<Message>)
      requires r.Req?
      modifies this
      ensures Outcome(Value(), sent) == OnReq(old(Value()), totalSockets, r)
    {
      sent := multiset{};
      if reqBusy {
        reqQueue := reqQueue + [Label(r, false)];
        return;
      }
      reqBusy := true;
      for i := 0 to totalSockets
        invariant sent == Fan(r, i)
      {
        sent := sent + multiset{Probe(r.line, r.source, r.home, i, r.kind, false)};
      }
      if r.kind.Read? {
        sent := sent + multiset{DramRead(r.line, r.source, r.home)};
      }
    }

    /** The next request is notified here, or sent to the node that owns its line by now. */
    method UnblockIncoming(owner: Directory) returns (sent: multiset<Message>)
      requires reqBusy && (forall i :: 0 <= i < |reqQueue| ==> reqQueue[i].Req? && reqQueue[i].home == node)
      requires reqQueue != [] ==> reqQueue[0].line in owner
      modifies this
      ensures Outcome(Value(), sent) == OnUnblock(old(Value()), owner)
    {
      sent := multiset{};
      reqBusy := false;
      if |reqQueue| > 0 {
        var t := reqQueue[0];
        reqQueue := reqQueue[1..];
        if owner[t.line] != node {
          t := Req(t.line, t.source, owner[t.line], t.kind, t.again);
        }
        sent := multiset{Label(t, true)};
      }
    }
  }

  /** The probe engine of an SRI: one probe at a time is put to the local caches. */
  class ProbeEngine {
    const node: Node
    const caches: nat
    var probeMsgBusy: bool
    var probeAddr: Line
    var probeAckReceived: int
    var activeProbeInvalidation: bool
    var dirtyData: bool
    var memoryData: bool
    var probeRequests: seq<Message>
    var dramProbeAsynchMsg: map<Line, Message>

    ghost function Value(): Engine
      reads this
    {
      Engine(probeMsgBusy, probeAddr, probeAckReceived, activeProbeInvalidation, dirtyData, memoryData, probeRequests,
             dramProbeAsynchMsg)
    }

    constructor (node: Node, caches: nat)
      ensures this.node == node && this.caches == caches
      ensures Value() == Engine(false, 0, 0, false, false, false, [], map[])
    {
      this.node, this.caches := node, caches;
      probeMsgBusy, probeAddr, probeAckReceived := false, 0, 0;
      activeProbeInvalidation, dirtyData, memoryData := false, false, false;
      probeRequests, dramProbeAsynchMsg := [], map[];
    }

    method OnProbeMessage(p: Message) returns (sent: multiset<Message>)
      requires p.Probe?
      requires !probeMsgBusy && p.line in dramProbeAsynchMsg ==> WantsDram(p)
      modifies this
      ensures Outcome(Value(), sent) == OnProbe(old(Value()), caches, p)
    {
      sent := multiset{};
      if probeMsgBusy {
        probeRequests := probeRequests + [Label(p, false)];
        return;
      }
      probeMsgBusy := true;
      probeAckReceived := caches;
      probeAddr := p.line;
      activeProbeInvalidation := p.kind.Invalidate?;
      if WantsDram(p) {
        probeAckReceived := probeAckReceived + 1;
      }
      ghost var early := dramProbeAsynchMsg;
      if p.line in dramProbeAsynchMsg {
        dramProbeAsynchMsg := dramProbeAsynchMsg - {p.line};
        memoryData := true;
        probeAckReceived := probeAckReceived - 1;
      }
      assert dramProbeAsynchMsg == early - {p.line};
      var q := CacheProbe(p.line, p.source, p.home, p.dest, p.kind);
      for i := 0 to caches
        invariant sent == multiset{}[q := i]
      {
        sent := sent + multiset{q};
      }
    }

    method Release() returns (sent: multiset<Message>)
      modifies this
      ensures Outcome(Value(), sent) == ReleaseEngine(old(Value()))
    {
      sent := multiset{};
      probeAckReceived := 0;
      probeMsgBusy := false;
      activeProbeInvalidation := false;
      dirtyData := false;
      memoryData := false;
      if |probeRequests| > 0 {
        var t := probeRequests[0];
        probeRequests := probeRequests[1..];
        sent := multiset{Label(t, true)};
      }
    }

    /** With migration on, the last answer may give the line another owner. */
    method Settle(m: Message, migrate: bool, owner: Directory) returns (owner': Directory)
      requires m.CacheAck? || m.DramAck?
      ensures owner' == if migrate then
                          Migrated(owner, Engine(true, m.line, 1, activeProbeInvalidation, dirtyData, memoryData, [], map[]),
                                                 node, m, false)
                        else owner
    {
      owner' := owner;
      if m.CacheAck? && !m.kind.Read? && m.source != node && !activeProbeInvalidation {
        if migrate && m.line in owner && owner[m.line] == node {
          owner' := owner[m.line := m.source];
        }
      }
      if activeProbeInvalidation && dirtyData && migrate {
        owner' := owner[m.line := node];
      }
    }

    method OnLocalAckMessage(m: Message, data: bool, migrate: bool, owner: Directory)
      returns (sent: multiset<Message>, owner': Directory)
      requires m.CacheAck? || m.DramAck?
      requires !probeMsgBusy || probeAddr != m.line ==> m.DramAck? && m.line !in dramProbeAsynchMsg
      modifies this
      ensures Outcome(Value(), sent) == OnLocalAck(old(Value()), node, m, data)
      ensures owner' == if migrate then Migrated(owner, old(Value()), node, m, data) else owner
    {
      sent, owner' := multiset{}, owner;
      if !probeMsgBusy || probeAddr != m.line {
        dramProbeAsynchMsg := dramProbeAsynchMsg[m.line := m];
        return;
      }
      probeAckReceived := probeAckReceived - 1;
      if m.CacheAck? && data {
        dirtyData := true;
      }
      if m.DramAck? {
        memoryData := true;
      }
      if probeAckReceived == 0 {
        owner' := Settle(m, migrate, owner);
        if activeProbeInvalidation && dirtyData {
          sent := multiset{Evict(m.line, m.source, m.home, node)};
        } else {
          var withData := dirtyData || memoryData;
          sent := Release();
          sent := sent + multiset{Ack(m.line, m.source, m.home, node, withData)};
        }
      }
    }

    method OnEvictedMessage(m: Message) returns (sent: multiset<Message>)
      requires m.Evict?
      modifies this
      ensures Outcome(Value(), sent) == OnEvicted(old(Value()), node, m)
    {
      sent := Release();
      sent := sent + multiset{Ack(m.line, m.source, m.home, node, true)};
    }
  }

  /** The requester side of an SRI. */
  class AckCounter {
    const totalSockets: nat
    var waitTranMap: Requester

    constructor (totalSockets: nat)
      ensures this.totalSockets == totalSockets && waitTranMap == map[]
    {
      this.totalSockets, waitTranMap := totalSockets, map[];
    }

    method OnAckMessage(m: Message) returns (sent: multiset<Message>)
      requires m.Ack? && m.line in waitTranMap
      modifies this
      ensures Outcome(waitTranMap, sent) == OnAck(old(waitTranMap), totalSockets, m)
    {
      sent := multiset{};
      var t := waitTranMap[m.line];
      t := t.(acks := t.acks + 1, bits := t.bits + {m.origin}, answered := t.answered || m.data);
      if t.acks == totalSockets {
        sent := multiset{Unblock(m.line, m.source, m.home)};
        if t.kind.Write? {
          sent := sent + multiset{Store(m.line, m.source, m.home)};
        }
        t := t.(unblocked := true, woken := !t.kind.Write?);
      }
      waitTranMap := Record(waitTranMap, m.line, t);
    }
  }
}
