/** The steps of the probe engine preserve the invariant. */
module FabricEngine {
  import opened Wrappers
  import opened Fabric
  import opened FabricView
  import opened FabricRank
  import opened FabricSteps

  /** The invariant, except for what it says about engine d and about the network. */
  ghost predicate Rest(s: System, v: View, d: Node)
  {
    && Sized(s, v) && d < Total(s)
    && Owners(s.owner, v, Total(s))
    && ServicesOk(v, Total(s))
    && Transactions(s.requesters, v)
    && Homes(s.homes, v)
    && (forall o: Node :: o < |s.engines| && o != d ==> EngineCore(s.engines[o], v.serving, o))
    && (forall o: Node :: o < |s.engines| && o != d ==> EngineLive(s.engines[o], v.serving, o))
  }

  lemma NearRest(s: System, v: View, h: Node, b: Service, d: Node)
    requires Rest(s, v, d) && h in v.serving && Near(v.serving[h], b, h, d) && ServiceOk(b, h, Total(s))
    requires v.serving[h].sockets[d] != Recorded && b.sockets[d] != Recorded
    ensures Rest(s, With(v, h, b), d)
  {
    hide Transactions, Homes, ServicesOk, EngineCore, EngineLive, ServiceOk;
    NearOwners(s.owner, v, h, b, d, Total(s));
    NearServices(v, h, b, d, Total(s));
    NearTransactions(s.requesters, v, h, b, d);
    NearHomes(s.homes, v, h, b);
    forall o: Node | o < |s.engines| && o != d
      ensures EngineCore(s.engines[o], With(v, h, b).serving, o) && EngineLive(s.engines[o], With(v, h, b).serving, o)
    {
      UnseenEngine(s.engines[o], v.serving, h, b, o);
    }
  }

  lemma NearOwners(owner: Directory, v: View, h: Node, b: Service, d: Node, total: nat)
    requires Owners(owner, v, total) && h in v.serving && Near(v.serving[h], b, h, d)
    ensures Owners(owner, With(v, h, b), total)
  {
  }

  lemma Assemble(s: System, v: View, m: Message, d: Node, o: Outcome<Engine>)
    requires Rest(s, v, d)
    requires EngineCore(o.state, v.serving, d) && EngineLive(o.state, v.serving, d)
    requires NetExact(s.net - multiset{m} + o.sent, v)
    ensures Inv(AtEngine(s, m, d, o), v)
  {
  }

  /** Consuming m and sending `sent` is what takes the service at h from a to b. */
  ghost predicate Balanced(m: Message, sent: multiset<Message>, a: Service, b: Service, h: Node, d: Node)
    requires d < |a.sockets| && d < |b.sockets|
  {
    sent + SocketMsgs(a, h, d) + DramMsgs(a, h) == multiset{m} + SocketMsgs(b, h, d) + DramMsgs(b, h)
  }

  lemma BalancedNet(net: multiset<Message>, m: Message, sent: multiset<Message>, v: View, h: Node, b: Service, d: Node)
    requires NetExact(net, v) && h in v.serving && Near(v.serving[h], b, h, d)
    requires m in net && Balanced(m, sent, v.serving[h], b, h, d)
    ensures NetExact(net - multiset{m} + sent, With(v, h, b))
  {
    var a := v.serving[h];
    var l, r := sent + SocketMsgs(a, h, d) + DramMsgs(a, h), SocketMsgs(b, h, d) + DramMsgs(b, h);
    assert l == multiset{m} + r;
    assert net - multiset{m} + sent + SocketMsgs(a, h, d) + DramMsgs(a, h) == net - multiset{m} + l;
    assert net - multiset{m} + (multiset{m} + r) == net + r;
    assert net + r == net + SocketMsgs(b, h, d) + DramMsgs(b, h);
    NearNet(net, net - multiset{m} + sent, v, h, b, d);
  }

  // ---------------------------------------------------------------- a probe arrives

  function ProbeService(a: Service, h: Node, d: Node, caches: nat, busy: bool): Service
    requires d < |a.sockets|
  {
    if busy then a.(sockets := a.sockets[d := Queued])
    else a.(sockets := a.sockets[d := Probing(caches, 0)], dram := if d == h && a.dram == Early then Counted else a.dram)
  }

  lemma ParkProbe(queue: seq<Message>, sv: Services, h: Node, d: Node, p: Message, b: Service)
    requires ParkedExact(queue, sv, d) && p.Probe? && h == p.home && d == p.dest
    requires SocketIs(sv, h, p.line, p.source, d, Fresh(p.again)) && sv[h].kind == p.kind
    requires b == sv[h].(sockets := sv[h].sockets[d := Queued])
    ensures ParkedExact(queue + [Label(p, false)], sv[h := b], d)
  {
    var sv' := sv[h := b];
    forall m: Message ensures multiset(queue + [Label(p, false)])[m] ==
      One(ParkedAt(sv', d, m))
    {
      assert multiset(queue)[m] ==
        One(ParkedAt(sv, d, m));
    }
  }

  /** Parked probes are untouched when no socket enters or leaves the queue. */
  lemma KeepParked(queue: seq<Message>, sv: Services, h: Node, d: Node, b: Service)
    requires ParkedExact(queue, sv, d) && h in sv && Near(sv[h], b, h, d)
    requires sv[h].sockets[d] != Queued && b.sockets[d] != Queued
    ensures ParkedExact(queue, sv[h := b], d)
  {
    SameParked(queue, sv, sv[h := b], d);
  }

  lemma ProbeParked(e: Engine, sv: Services, h: Node, d: Node, p: Message, caches: nat)
    requires EngineCore(e, sv, d) && e.busy && p.Probe? && h == p.home && d == p.dest
    requires SocketIs(sv, h, p.line, p.source, d, Fresh(p.again)) && sv[h].kind == p.kind
    ensures EngineCore(OnProbe(e, caches, p).state, sv[h := ProbeService(sv[h], h, d, caches, true)], d)
    ensures OnProbe(e, caches, p).state.busy
  {
    var b := ProbeService(sv[h], h, d, caches, true);
    ParkProbe(e.queue, sv, h, d, p, b);
    hide ParkedExact;
    var sv' := sv[h := b];
    forall k: Node ensures Occupies(sv', k, d) == Occupies(sv, k, d) {}
    var k: Node :| Occupies(sv, k, d);
    assert Occupies(sv', k, d);
  }

  lemma ProbeStarted(e: Engine, sv: Services, h: Node, d: Node, p: Message, caches: nat)
    requires EngineCore(e, sv, d) && !e.busy && p.Probe? && h == p.home && d == p.dest && caches >= 1
    requires SocketIs(sv, h, p.line, p.source, d, Fresh(p.again)) && sv[h].kind == p.kind
    requires ServiceOk(sv[h], h, |sv[h].sockets|) && (p.line in e.early ==> WantsDram(p))
    ensures EngineCore(OnProbe(e, caches, p).state, sv[h := ProbeService(sv[h], h, d, caches, false)], d)
    ensures OnProbe(e, caches, p).state.busy
  {
    var b := ProbeService(sv[h], h, d, caches, false);
    KeepParked(e.queue, sv, h, d, b);
    hide ParkedExact;
    var sv' := sv[h := b];
    assert Occupies(sv', h, d);
    forall k: Node | k != h ensures Occupies(sv', k, d) == Occupies(sv, k, d) {}
  }

  lemma InFlight(net: multiset<Message>, v: View, m: Message)
    requires NetExact(net, v) && m in net
    ensures Expected(v, m) >= 1
  {
    assert net[m] == Expected(v, m);
  }

  /** What the invariant says at engine d, in the form the steps below use. */
  lemma Focus(s: System, v: View, d: Node)
    requires Inv(s, v) && d < Total(s)
    ensures Rest(s, v, d) && EngineCore(s.engines[d], v.serving, d) && EngineLive(s.engines[d], v.serving, d)
    ensures NetExact(s.net, v) && |s.requesters| == |s.engines| == |s.homes| >= 1
    ensures forall h: Node :: h in v.serving ==> ServiceOk(v.serving[h], h, Total(s))
  {
  }

  lemma ProbeStep(s: System, v: View, m: Message, data: bool) returns (v': View)
    requires Inv(s, v) && m in s.net && m.Probe? && Admissible(s, v, m, data)
    ensures AssertsHold(s, m) && Inv(DeliverTo(s, m, data), v') && Falls(v, v', Total(s), s.caches)
  {
    hide Falls;
    InFlight(s.net, v, m);
    v' := ProbeAt(s, v, m);
  }

  lemma ProbeServiceOk(a: Service, m: Message, e: Engine, caches: nat)
    requires m.Probe? && ServiceOk(a, m.home, |a.sockets|) && m.dest < |a.sockets|
    requires a.line == m.line && a.source == m.source && a.kind == m.kind && a.sockets[m.dest] == Fresh(m.again)
    ensures var b := ProbeService(a, m.home, m.dest, caches, e.busy);
            && ServiceOk(b, m.home, |a.sockets|) && Near(a, b, m.home, m.dest)
            && b.sockets[m.dest] != Recorded
            && Balanced(m, OnProbe(e, caches, m).sent, a, b, m.home, m.dest)
  {
  }

  lemma ProbeAt(s: System, v: View, m: Message) returns (v': View)
    requires Inv(s, v) && m.Probe? && m.dest < Total(s) && m in s.net
    requires SocketIs(v.serving, m.home, m.line, m.source, m.dest, Fresh(m.again)) && v.serving[m.home].kind == m.kind
    requires m.dest < |s.engines| && !Preempted(s, m)
    ensures Inv(AtEngine(s, m, m.dest, OnProbe(s.engines[m.dest], s.caches, m)), v') && Falls(v, v', Total(s), s.caches)
  {
    hide Falls, Inv, NetExact, ServicesOk, Transactions, Homes, Owners, ServiceOk, EngineCore, Near;
    hide OnProbe, ProbeService, SocketMsgs, DramMsgs;
    Focus(s, v, m.dest);
    var a, e := v.serving[m.home], s.engines[m.dest];
    assert |a.sockets| == Total(s) by { ServiceSize(a, m.home, Total(s)); }
    ProbeServiceOk(a, m, e, s.caches);
    var b := ProbeService(a, m.home, m.dest, s.caches, e.busy);
    v' := With(v, m.home, b);
    if e.busy { ProbeParked(e, v.serving, m.home, m.dest, m, s.caches); }
    else { ProbeStarted(e, v.serving, m.home, m.dest, m, s.caches); }
    NearRest(s, v, m.home, b, m.dest);
    BalancedNet(s.net, m, OnProbe(e, s.caches, m).sent, v, m.home, b, m.dest);
    ProbeLighter(a, m, e.busy, s.caches);
    HomeBound(s, v, m.home);
    FallsNear(v, m.home, b, m.dest, Total(s), s.caches);
    Assemble(s, v', m, m.dest, OnProbe(e, s.caches, m));
  }

  lemma ProbeLighter(a: Service, m: Message, busy: bool, caches: nat)
    requires m.Probe? && m.dest < |a.sockets| && a.sockets[m.dest] == Fresh(m.again)
    ensures |ProbeService(a, m.home, m.dest, caches, busy).sockets| == |a.sockets|
    ensures Local(ProbeService(a, m.home, m.dest, caches, busy), m.dest, caches) < Local(a, m.dest, caches)
  {
  }

  lemma HomeBound(s: System, v: View, h: Node)
    requires Inv(s, v) && h in v.serving
    ensures h < Total(s)
  {
    assert ServiceOk(v.serving[h], h, Total(s));
  }

  lemma ServiceSize(a: Service, h: Node, total: nat)
    requires ServiceOk(a, h, total)
    ensures |a.sockets| == total
  {
  }

  // ---------------------------------------------------------------- the engine is released

  function Idle(e: Engine): Engine
  {
    e.(busy := false, owed := 0, invalidating := false, dirty := false, memory := false)
  }

  lemma UnparkProbe(queue: seq<Message>, sv: Services, d: Node)
    requires ParkedExact(queue, sv, d) && queue != []
    ensures var p := queue[0];
            && p.Probe? && p.dest == d && !p.again && SocketIs(sv, p.home, p.line, p.source, d, Queued)
            && sv[p.home].kind == p.kind
            && ParkedExact(queue[1..], sv[p.home := sv[p.home].(sockets := sv[p.home].sockets[d := Fresh(true)])], d)
  {
    var p := queue[0];
    assert multiset(queue)[p] >= 1;
    var sv' := sv[p.home := sv[p.home].(sockets := sv[p.home].sockets[d := Fresh(true)])];
    assert queue == [p] + queue[1..];
    forall m: Message ensures multiset(queue[1..])[m] ==
      One(ParkedAt(sv', d, m))
    {
      assert multiset(queue)[m] == multiset([p])[m] + multiset(queue[1..])[m];
      assert multiset(queue)[m] ==
        One(ParkedAt(sv, d, m));
    }
  }

  lemma ReleasedCore(e: Engine, sv: Services, d: Node)
    requires EngineCore(Idle(e), sv, d) && e.queue != []
    ensures var h := e.queue[0].home;
            && h in sv && d < |sv[h].sockets|
            && EngineCore(ReleaseEngine(e).state, sv[h := sv[h].(sockets := sv[h].sockets[d := Fresh(true)])], d)
            && EngineLive(ReleaseEngine(e).state, sv[h := sv[h].(sockets := sv[h].sockets[d := Fresh(true)])], d)
  {
    UnparkProbe(e.queue, sv, d);
    hide ParkedExact;
    var h := e.queue[0].home;
    var sv' := sv[h := sv[h].(sockets := sv[h].sockets[d := Fresh(true)])];
    forall k: Node ensures Occupies(sv', k, d) == Occupies(sv, k, d) {}
    assert ProbeIs(sv', h, d, Fresh(true));
  }

  lemma RestServices(s: System, v: View, d: Node, h: Node)
    requires Rest(s, v, d) && h in v.serving
    ensures ServiceOk(v.serving[h], h, Total(s)) && |v.serving[h].sockets| == Total(s)
  {
  }

  lemma UnparkService(a: Service, h: Node, d: Node, total: nat, p: Message)
    requires ServiceOk(a, h, total) && d < |a.sockets| && a.sockets[d] == Queued
    requires p.Probe? && p.home == h && p.dest == d && p.line == a.line && p.source == a.source && p.kind == a.kind
    ensures var b := a.(sockets := a.sockets[d := Fresh(true)]);
            && ServiceOk(b, h, total) && Near(a, b, h, d) && b.sockets[d] != Recorded
            && SocketMsgs(a, h, d) == multiset{} && SocketMsgs(b, h, d) == multiset{Label(p, true)}
            && DramMsgs(a, h) == DramMsgs(b, h)
  {
  }

  /** v' is v with the probe of the service at k parked at socket d sent on its way again. */
  ghost predicate Unparks(v: View, v': View, k: Node, d: Node, total: nat)
  {
    && k in v.serving && k < total && d < |v.serving[k].sockets| && v.serving[k].sockets[d] == Queued
    && v' == With(v, k, v.serving[k].(sockets := v.serving[k].sockets[d := Fresh(true)]))
  }

  lemma Release(s: System, v: View, d: Node, e: Engine, net: multiset<Message>) returns (v': View)
    requires Rest(s, v, d) && EngineCore(Idle(e), v.serving, d) && NetExact(net, v)
    ensures Rest(s, v', d) && NetExact(net + ReleaseEngine(e).sent, v')
    ensures EngineCore(ReleaseEngine(e).state, v'.serving, d) && EngineLive(ReleaseEngine(e).state, v'.serving, d)
    ensures v' == v || exists k: Node :: Unparks(v, v', k, d, Total(s))
  {
    if e.queue == [] {
      assert net + ReleaseEngine(e).sent == net;
      v' := v;
    } else {
      var p := e.queue[0];
      UnparkProbe(e.queue, v.serving, d);
      ReleasedCore(e, v.serving, d);
      v' := ReleaseNext(s, v, d, p, net);
      RestServices(s, v, d, p.home);
      assert Unparks(v, v', p.home, d, Total(s));
    }
  }

  lemma ReleaseNext(s: System, v: View, d: Node, p: Message, net: multiset<Message>) returns (v': View)
    requires Rest(s, v, d) && NetExact(net, v)
    requires p.Probe? && p.dest == d && !p.again && SocketIs(v.serving, p.home, p.line, p.source, d, Queued)
    requires v.serving[p.home].kind == p.kind
    ensures v' == With(v, p.home, v.serving[p.home].(sockets := v.serving[p.home].sockets[d := Fresh(true)]))
    ensures Rest(s, v', d) && NetExact(net + multiset{Label(p, true)}, v')
  {
    hide Rest, ServiceOk, Near, SocketMsgs, DramMsgs, NetExact;
    var a := v.serving[p.home];
    var b := a.(sockets := a.sockets[d := Fresh(true)]);
    RestServices(s, v, d, p.home);
    UnparkService(a, p.home, d, Total(s), p);
    v' := With(v, p.home, b);
    NearRest(s, v, p.home, b, d);
    NearNet(net, net + multiset{Label(p, true)}, v, p.home, b, d);
  }
}
