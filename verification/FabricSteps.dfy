/** Every step of the fabric preserves the invariant and passes its own assertions. */
module FabricSteps {
  import opened Requests
  import opened Wrappers
  import opened Fabric
  import opened FabricView
  import opened FabricRank

  // ---------------------------------------------------------------- a change of one pending request

  lemma PutServices(v: View, x: Key, p: Pending, total: nat)
    requires ServicesOk(v, total) && (x in v.pending ==> v.pending[x].stage != Serving) && p.stage != Serving
    ensures ServicesOk(Put(v, x, p), total)
  {
  }

  lemma PutHomes(cs: seq<Home>, v: View, x: Key, p: Pending)
    requires Homes(cs, v) && !p.stage.Held?
    requires x in v.pending ==> !v.pending[x].stage.Held? && v.pending[x].stage != Flying(true)
    ensures Homes(cs, Put(v, x, p))
  {
    var v' := Put(v, x, p);
    forall h: Node | h < |cs| ensures HomeOk(cs[h], v', h) {
      assert HomeOk(cs[h], v, h);
      if v.lively && !cs[h].busy && cs[h].queue != [] {
        var y: Key :| y in v.pending && v.pending[y].stage == Flying(true) && v.pending[y].home == h;
        assert y in v'.pending;
      }
    }
  }

  lemma SetTransaction(rs: seq<Requester>, v: View, node: Node, line: Line, t: Transaction, p: Pending)
    requires Transactions(rs, v) && node < |rs|
    requires TransactionOk(t, p, v, |rs|)
    ensures Transactions(rs[node := Record(rs[node], line, t)], Put(v, (node, line), p))
  {
    var v' := Put(v, (node, line), p);
    var rs' := rs[node := Record(rs[node], line, t)];
    forall x: Key | x in v'.pending ensures TransactionOk(rs'[x.0][x.1], v'.pending[x], v', |rs'|) {
      if x != (node, line) { assert x in v.pending; }
    }
  }

  /** The message a pending request is responsible for, if any. */
  function PendingMsgs(x: Key, p: Pending): multiset<Message>
  {
    match p.stage
    case Flying(again) => multiset{Req(x.1, x.0, p.home, p.kind, again)}
    case Storing => if p.kind.Write? then multiset{Store(x.1, x.0, p.home)} else multiset{}
    case _ => multiset{}
  }

  function MsgsAt(v: View, x: Key): multiset<Message>
  {
    if x in v.pending then PendingMsgs(x, v.pending[x]) else multiset{}
  }

  lemma PutPending(pending: map<Key, Pending>, x: Key, p: Pending, m: Message)
    requires m.Req? || m.Store?
    ensures FromPending(pending[x := p], m) ==
            FromPending(pending, m) - (if x in pending then PendingMsgs(x, pending[x])[m] else 0) + PendingMsgs(x, p)[m]
  {
  }

  lemma PutNet(net: multiset<Message>, v: View, x: Key, p: Pending)
    requires NetExact(net, v)
    ensures NetExact(net - MsgsAt(v, x) + PendingMsgs(x, p), Put(v, x, p))
  {
    var v' := Put(v, x, p);
    forall m: Message ensures (net - MsgsAt(v, x) + PendingMsgs(x, p))[m] == Expected(v', m) {
      assert net[m] == Expected(v, m);
      if m.Req? || m.Store? { PutPending(v.pending, x, p, m); }
    }
  }

  lemma PutOwners(owner: Directory, v: View, x: Key, p: Pending, total: nat)
    requires Owners(owner, v, total) && x.1 in owner && p.home < total && (v.still ==> owner[x.1] == p.home)
    ensures Owners(owner, Put(v, x, p), total)
  {
  }

  lemma GrowOwners(owner: Directory, v: View, line: Line, home: Node, total: nat)
    requires Owners(owner, v, total) && home < total && (line in owner ==> owner[line] == home)
    ensures Owners(owner[line := home], v, total)
  {
  }

  lemma StartStep(s: System, v: View, node: Node, line: Line, kind: Kind) returns (v': View)
    requires Inv(s, v) && node < Total(s) && line !in s.requesters[node]
    ensures Inv(StartAt(s, node, line, kind), v') && SamePromises(v, v')
  {
    var s' := StartAt(s, node, line, kind);
    var x := (node, line);
    var p := Pending(kind, s'.owner[line], Flying(false));
    v' := Put(v, x, p);
    GrowOwners(s.owner, v, line, p.home, Total(s));
    PutOwners(s'.owner, v, x, p, Total(s));
    PutServices(v, x, p, Total(s));
    SetTransaction(s.requesters, v, node, line, Transaction(kind, 0, {}, false, false, false), p);
    PutHomes(s.homes, v, x, p);
    PutNet(s.net, v, x, p);
    assert s.net - MsgsAt(v, x) + PendingMsgs(x, p) == s'.net;
  }

  lemma ResumeStep(s: System, v: View, node: Node, line: Line) returns (v': View)
    requires Inv(s, v) && node < Total(s) && line in s.requesters[node] && s.requesters[node][line].woken
    ensures Inv(ResumeAt(s, node, line), v') && SamePromises(v, v')
  {
    var s' := ResumeAt(s, node, line);
    var x := (node, line);
    v' := v.(pending := v.pending - {x});
    assert x in v.pending && v.pending[x].stage == Woken;
    DropHomes(s.homes, v, x);
    DropNet(s.net, v, x);
    DropServices(v, x, Total(s));
    DropTransactions(s.requesters, v, node, line);
  }

  lemma DropServices(v: View, x: Key, total: nat)
    requires ServicesOk(v, total) && x in v.pending && v.pending[x].stage == Woken
    ensures ServicesOk(v.(pending := v.pending - {x}), total)
  {
  }

  lemma DropTransactions(rs: seq<Requester>, v: View, node: Node, line: Line)
    requires Transactions(rs, v) && node < |rs|
    ensures Transactions(rs[node := rs[node] - {line}], v.(pending := v.pending - {(node, line)}))
  {
    var rs' := rs[node := rs[node] - {line}];
    var v' := v.(pending := v.pending - {(node, line)});
    forall x: Key | x in v'.pending ensures TransactionOk(rs'[x.0][x.1], v'.pending[x], v', |rs'|) {
      assert x in v.pending;
    }
  }

  lemma DropNet(net: multiset<Message>, v: View, x: Key)
    requires NetExact(net, v) && x in v.pending && v.pending[x].stage == Woken
    ensures NetExact(net, v.(pending := v.pending - {x}))
  {
    forall m: Message ensures net[m] == Expected(v.(pending := v.pending - {x}), m) {
      assert net[m] == Expected(v, m);
    }
  }

  lemma DropHomes(cs: seq<Home>, v: View, x: Key)
    requires Homes(cs, v) && x in v.pending && v.pending[x].stage == Woken
    ensures Homes(cs, v.(pending := v.pending - {x}))
  {
    var v' := v.(pending := v.pending - {x});
    forall h: Node | h < |cs| ensures HomeOk(cs[h], v', h) {
      assert HomeOk(cs[h], v, h);
      if v.lively && !cs[h].busy && cs[h].queue != [] {
        var y: Key :| y in v.pending && v.pending[y].stage == Flying(true) && v.pending[y].home == h;
        assert y in v'.pending;
      }
    }
  }

  lemma StoreStep(s: System, v: View, m: Message, data: bool) returns (v': View)
    requires Inv(s, v) && m in s.net && m.Store?
    ensures AssertsHold(s, m) && Inv(DeliverTo(s, m, data), v') && Falls(v, v', Total(s), s.caches)
  {
    hide Falls, Homes, NetExact, ServicesOk, Engines, Owners;
    var x := (m.source, m.line);
    Parts(s, v);
    StoreFlying(s.net, v, m);
    FallsStore(v, x, Total(s), s.caches);
    var p := v.pending[x].(stage := Woken);
    v' := Put(v, x, p);
    var t := s.requesters[m.source][m.line];
    assert TransactionOk(t, v.pending[x], v, Total(s));
    StoreHome(s.owner, v, x, Total(s));
    PutOwners(s.owner, v, x, p, Total(s));
    PutServices(v, x, p, Total(s));
    SetTransaction(s.requesters, v, m.source, m.line, t.(woken := true), p);
    PutHomes(s.homes, v, x, p);
    PutNet(s.net, v, x, p);
    assert s.net - MsgsAt(v, x) + PendingMsgs(x, p) == s.net - multiset{m} + multiset{};
    Whole(DeliverTo(s, m, data), v');
  }

  lemma StoreFlying(net: multiset<Message>, v: View, m: Message)
    requires NetExact(net, v) && m in net && m.Store?
    ensures (m.source, m.line) in v.pending && v.pending[(m.source, m.line)] == Pending(Write, m.home, Storing)
  {
    assert net[m] == Expected(v, m);
  }

  lemma StoreHome(owner: Directory, v: View, x: Key, total: nat)
    requires Owners(owner, v, total) && x in v.pending
    ensures x.1 in owner && v.pending[x].home < total && (v.still ==> owner[x.1] == v.pending[x].home)
  {
  }

  // ---------------------------------------------------------------- a change of one socket of one service

  lemma NearServices(v: View, h: Node, b: Service, d: Node, total: nat)
    requires ServicesOk(v, total) && h in v.serving && Near(v.serving[h], b, h, d) && ServiceOk(b, h, total)
    ensures ServicesOk(With(v, h, b), total)
  {
  }

  lemma NearTransactions(rs: seq<Requester>, v: View, h: Node, b: Service, d: Node)
    requires Transactions(rs, v) && h in v.serving && Near(v.serving[h], b, h, d)
    requires v.serving[h].sockets[d] != Recorded && b.sockets[d] != Recorded
    ensures Transactions(rs, With(v, h, b))
  {
    var v' := With(v, h, b);
    forall x: Key | x in v.pending ensures TransactionOk(rs[x.0][x.1], v'.pending[x], v', |rs|) {
      assert TransactionOk(rs[x.0][x.1], v.pending[x], v, |rs|);
    }
  }

  lemma NearHomes(cs: seq<Home>, v: View, h: Node, b: Service)
    requires Homes(cs, v) && h in v.serving
    ensures Homes(cs, With(v, h, b))
  {
    var v' := With(v, h, b);
    forall k: Node | k < |cs| ensures HomeOk(cs[k], v', k) {
      assert HomeOk(cs[k], v, k);
    }
  }

  /** A change of the service at h that the engine of socket o cannot see. */
  predicate Unseen(a: Service, b: Service, h: Node, o: Node)
  {
    && a.line == b.line && a.source == b.source && a.kind == b.kind && |a.sockets| == |b.sockets|
    && (o == h ==> (a.dram == Early) == (b.dram == Early) && (a.dram == Counted) == (b.dram == Counted))
    && (o < |a.sockets| ==>
          match (a.sockets[o], b.sockets[o])
          case (Probing(_, _), Probing(_, _)) => Owed(a, h, o) == Owed(b, h, o)
          case (Acked(_), Recorded) => true
          case (x, y) => x == y)
  }

  lemma SameParked(queue: seq<Message>, sv: Services, sv': Services, d: Node)
    requires ParkedExact(queue, sv, d) && forall m: Message :: ParkedAt(sv', d, m) == ParkedAt(sv, d, m)
    ensures ParkedExact(queue, sv', d)
  {
    forall m: Message ensures multiset(queue)[m] == One(ParkedAt(sv', d, m)) {
      assert multiset(queue)[m] == One(ParkedAt(sv, d, m));
    }
  }

  /** An engine that finds the same probes, occupant, counts and early data in both views. */
  lemma SameEngine(e: Engine, sv: Services, sv': Services, d: Node)
    requires EngineCore(e, sv, d) && EngineLive(e, sv, d)
    requires forall m: Message :: ParkedAt(sv', d, m) == ParkedAt(sv, d, m)
    requires forall l: Line :: EarlyAt(sv', d, l) == EarlyAt(sv, d, l)
    requires forall k: Node :: Occupies(sv', k, d) == Occupies(sv, k, d)
    requires forall k: Node :: ProbeIs(sv, k, d, Fresh(true)) ==> ProbeIs(sv', k, d, Fresh(true))
    requires forall k: Node :: Occupies(sv', k, d) ==>
               sv'[k].line == sv[k].line && sv'[k].kind == sv[k].kind
               && sv'[k].sockets[d].Probing? == sv[k].sockets[d].Probing?
               && (sv[k].sockets[d].Probing? ==> Owed(sv'[k], k, d) == Owed(sv[k], k, d))
               && (k == d && sv'[k].dram == Counted ==> sv[k].dram == Counted)
    ensures EngineCore(e, sv', d) && EngineLive(e, sv', d)
  {
    SameParked(e.queue, sv, sv', d);
    hide ParkedExact;
    if e.busy { var k: Node :| Occupies(sv, k, d); assert Occupies(sv', k, d); }
    if !e.busy && e.queue != [] {
      var k: Node :| ProbeIs(sv, k, d, Fresh(true));
      assert ProbeIs(sv', k, d, Fresh(true));
    }
  }

  lemma UnseenEngine(e: Engine, sv: Services, h: Node, b: Service, o: Node)
    requires h in sv && Unseen(sv[h], b, h, o)
    requires EngineCore(e, sv, o) && EngineLive(e, sv, o)
    ensures EngineCore(e, sv[h := b], o) && EngineLive(e, sv[h := b], o)
  {
    SameEngine(e, sv, sv[h := b], o);
  }

  /** The messages that socket d of the service at h accounts for, and its DRAM question. */
  function SocketMsgs(a: Service, h: Node, d: Node): multiset<Message>
    requires d < |a.sockets|
  {
    match a.sockets[d]
    case Fresh(again) => multiset{Probe(a.line, a.source, h, d, a.kind, again)}
    case Probing(probes, acks) =>
      multiset{}[CacheProbe(a.line, a.source, h, d, a.kind) := probes][CacheAck(a.line, a.source, h, d, a.kind) := acks]
    case Evicting => multiset{Evict(a.line, a.source, h, d)}
    case Acked(data) => multiset{Ack(a.line, a.source, h, d, data)}
    case _ => multiset{}
  }

  function DramMsgs(a: Service, h: Node): multiset<Message>
  {
    match a.dram
    case Reading => multiset{DramRead(a.line, a.source, h)}
    case Replied => multiset{DramAck(a.line, a.source, h)}
    case _ => multiset{}
  }

  lemma SocketMsgsCount(a: Service, h: Node, d: Node, m: Message)
    requires d < |a.sockets|
    ensures SocketMsgs(a, h, d)[m] ==
            if AboutSocket(m) && m.home == h && m.line == a.line && m.source == a.source && SocketOf(m) == d
            then FromSocket(a.sockets[d], a.kind, m) else 0
  {
  }

  lemma DramMsgsCount(a: Service, h: Node, m: Message)
    ensures DramMsgs(a, h)[m] ==
            if (m.DramRead? || m.DramAck?) && m.home == h && m.line == a.line && m.source == a.source
            then FromDram(a.dram, m) else 0
  {
  }

  lemma NearMessage(sv: Services, h: Node, b: Service, d: Node, m: Message)
    requires h in sv && Near(sv[h], b, h, d) && !m.Req? && !m.Store?
    ensures FromService(sv[h := b], m) ==
            FromService(sv, m) - SocketMsgs(sv[h], h, d)[m] - DramMsgs(sv[h], h)[m]
            + SocketMsgs(b, h, d)[m] + DramMsgs(b, h)[m]
  {
    SocketMsgsCount(sv[h], h, d, m);
    SocketMsgsCount(b, h, d, m);
    DramMsgsCount(sv[h], h, m);
    DramMsgsCount(b, h, m);
  }

  /** Messages are conserved: what leaves one side of the equation appears on the other. */
  lemma NearNet(net: multiset<Message>, net': multiset<Message>, v: View, h: Node, b: Service, d: Node)
    requires NetExact(net, v) && h in v.serving && Near(v.serving[h], b, h, d)
    requires net' + SocketMsgs(v.serving[h], h, d) + DramMsgs(v.serving[h], h) == net + SocketMsgs(b, h, d) + DramMsgs(b, h)
    ensures NetExact(net', With(v, h, b))
  {
    var a, v' := v.serving[h], With(v, h, b);
    forall m: Message ensures net'[m] == Expected(v', m) {
      assert net[m] == Expected(v, m);
      assert (net' + SocketMsgs(a, h, d) + DramMsgs(a, h))[m] == (net + SocketMsgs(b, h, d) + DramMsgs(b, h))[m];
      if m.Req? || m.Store? { SocketMsgsCount(a, h, d, m); SocketMsgsCount(b, h, d, m); }
      else { NearMessage(v.serving, h, b, d, m); }
    }
  }
}
