/** Memory and cache replies, and acknowledgements at the requester, preserve the invariant. */
module FabricCollect {
  import opened Requests
  import opened Fabric
  import opened FabricView
  import opened FabricRank
  import opened FabricSteps
  import opened FabricEngine

  lemma QuietStep(s: System, v: View, m: Message, h: Node, b: Service, d: Node, sent: multiset<Message>)
    returns (v': View)
    requires Inv(s, v) && m in s.net && h in v.serving && Near(v.serving[h], b, h, d)
    requires ServiceOk(b, h, Total(s)) && Unseen(v.serving[h], b, h, d)
    requires v.serving[h].sockets[d] != Recorded && b.sockets[d] != Recorded
    requires Balanced(m, sent, v.serving[h], b, h, d)
    requires Local(b, d, s.caches) < Local(v.serving[h], d, s.caches)
    ensures Inv(s.(net := s.net - multiset{m} + sent), v') && Falls(v, v', Total(s), s.caches)
  {
    hide Falls, Inv, Rest, NetExact, EngineCore, EngineLive, Balanced, ServiceOk, Near, Unseen;
    ServiceSizeAt(s, v, h, b, d);
    Focus(s, v, d);
    v' := With(v, h, b);
    NearRest(s, v, h, b, d);
    UnseenEngine(s.engines[d], v.serving, h, b, d);
    BalancedNet(s.net, m, sent, v, h, b, d);
    HomeBound(s, v, h);
    FallsNear(v, h, b, d, Total(s), s.caches);
    Assemble(s, v', m, d, Outcome(s.engines[d], sent));
    assert AtEngine(s, m, d, Outcome(s.engines[d], sent)) == s.(net := s.net - multiset{m} + sent);
  }

  lemma ServiceSizeAt(s: System, v: View, h: Node, b: Service, d: Node)
    requires Inv(s, v) && h in v.serving && Near(v.serving[h], b, h, d)
    ensures d < Total(s) && d < |s.engines| && |v.serving[h].sockets| == |b.sockets| == Total(s)
  {
  }

  lemma ReplyStep(s: System, v: View, m: Message, data: bool) returns (v': View)
    requires Inv(s, v) && m in s.net && (m.DramRead? || m.CacheProbe?)
    ensures AssertsHold(s, m) && Inv(DeliverTo(s, m, data), v') && Falls(v, v', Total(s), s.caches)
  {
    hide Falls;
    InFlight(s.net, v, m);
    v' := ReplyAt(s, v, m);
  }

  lemma ReplyAt(s: System, v: View, m: Message) returns (v': View)
    requires Inv(s, v) && m in s.net && (m.DramRead? || m.CacheProbe?) && FromService(v.serving, m) >= 1
    ensures m.home < Total(s) && (m.CacheProbe? ==> m.dest < Total(s))
    ensures Inv(s.(net := s.net - multiset{m} + multiset{Reply(m)}), v') && Falls(v, v', Total(s), s.caches)
  {
    hide Falls, Inv, NetExact, Transactions, Homes, Engines, Balanced;
    var h := m.home;
    ServiceAt(s, v, h);
    var a := v.serving[h];
    if m.DramRead? {
      DramReply(a, m, h, Total(s));
      v' := QuietStep(s, v, m, h, a.(dram := Replied), h, multiset{Reply(m)});
    } else {
      CacheReply(a, m, h, m.dest, Total(s));
      CacheReplyBalanced(a, m, h, m.dest);
      var k := a.sockets[m.dest];
      var b := a.(sockets := a.sockets[m.dest := Probing(k.probes - 1, k.acks + 1)]);
      v' := QuietStep(s, v, m, h, b, m.dest, multiset{Reply(m)});
    }
  }

  function Reply(m: Message): Message
    requires m.DramRead? || m.CacheProbe?
  {
    if m.DramRead? then DramAck(m.line, m.source, m.home) else CacheAck(m.line, m.source, m.home, m.dest, m.kind)
  }

  lemma ServiceAt(s: System, v: View, h: Node)
    requires Inv(s, v) && h in v.serving
    ensures ServiceOk(v.serving[h], h, Total(s))
  {
  }

  lemma ShiftOne(x: Message, y: Message, p: nat, q: nat)
    requires x != y && p >= 1
    ensures multiset{y} + multiset{}[x := p][y := q] == multiset{x} + multiset{}[x := p - 1][y := q + 1]
  {
  }

  lemma DramReply(a: Service, m: Message, h: Node, total: nat)
    requires ServiceOk(a, h, total) && m.home == h && m.line == a.line && m.source == a.source
    requires m.DramRead? && a.dram == Reading
    ensures var b := a.(dram := Replied);
            && ServiceOk(b, h, total) && Near(a, b, h, h) && Unseen(a, b, h, h)
            && a.sockets[h] != Recorded && Balanced(m, multiset{Reply(m)}, a, b, h, h)
  {
    assert SocketMsgs(a, h, h) == SocketMsgs(a.(dram := Replied), h, h);
  }

  lemma CacheReply(a: Service, m: Message, h: Node, d: Node, total: nat)
    requires ServiceOk(a, h, total) && m.home == h && m.line == a.line && m.source == a.source && d < total
    requires m.CacheProbe? && m.dest == d && m.kind == a.kind && a.sockets[d].Probing? && a.sockets[d].probes >= 1
    ensures var b := a.(sockets := a.sockets[d := Probing(a.sockets[d].probes - 1, a.sockets[d].acks + 1)]);
            ServiceOk(b, h, total) && Near(a, b, h, d) && Unseen(a, b, h, d)
  {
  }

  lemma CacheReplyBalanced(a: Service, m: Message, h: Node, d: Node)
    requires m.CacheProbe? && m.home == h && m.line == a.line && m.source == a.source && m.dest == d && m.kind == a.kind
    requires d < |a.sockets| && a.sockets[d].Probing? && a.sockets[d].probes >= 1
    ensures Balanced(m, multiset{Reply(m)}, a,
                     a.(sockets := a.sockets[d := Probing(a.sockets[d].probes - 1, a.sockets[d].acks + 1)]), h, d)
  {
    var k := a.sockets[d];
    var b := a.(sockets := a.sockets[d := Probing(k.probes - 1, k.acks + 1)]);
    ShiftOne(m, Reply(m), k.probes, k.acks);
    assert multiset{Reply(m)} + SocketMsgs(a, h, d) == multiset{m} + SocketMsgs(b, h, d);
    assert DramMsgs(a, h) == DramMsgs(b, h);
  }

  // ---------------------------------------------------------------- an acknowledgement reaches the requester

  function Nodes(total: nat): (r: set<Node>)
    ensures |r| == total && forall d: Node :: d in r <==> d < total
  {
    if total == 0 then {} else Nodes(total - 1) + {total - 1}
  }

  lemma FullSet(bits: set<Node>, total: nat)
    requires forall d :: d in bits ==> d < total
    ensures |bits| <= total && (|bits| == total <==> forall d: Node :: d < total ==> d in bits)
  {
    var all := Nodes(total);
    assert bits <= all;
    Cardinality(bits, all);
    if |bits| == total {
      forall d: Node | d < total ensures d in bits {
        if d !in bits { Cardinality(bits, all - {d}); }
      }
    } else {
      assert bits != all;
    }
  }

  lemma Cardinality(a: set<Node>, b: set<Node>)
    requires a <= b
    ensures |a| <= |b|
  {
    assert |b - a| + |a| == |b - a + a| && b - a + a == b;
  }

  /** The service after one more, possibly the last, acknowledgement. */
  function Recording(a: Service, d: Node, last: bool): Service
    requires d < |a.sockets|
  {
    a.(sockets := a.sockets[d := Recorded], done := last)
  }

  function Collected(p: Pending, last: bool): Pending
  {
    if last then p.(stage := if p.kind.Write? then Storing else Woken) else p
  }

  /** What the requester's record looks like just before an acknowledgement from d is counted. */
  lemma Awaiting(s: System, v: View, m: Message)
    requires Inv(s, v) && m.Ack? && SocketIs(v.serving, m.home, m.line, m.source, m.origin, Acked(m.data))
    ensures m.source < Total(s) && m.origin < Total(s) && m.line in s.requesters[m.source]
    ensures (m.source, m.line) in v.pending
    ensures !v.serving[m.home].done
    ensures ServiceOk(v.serving[m.home], m.home, Total(s))
    ensures v.pending[(m.source, m.line)] == Pending(v.serving[m.home].kind, m.home, Serving)
    ensures var t := s.requesters[m.source][m.line];
            && t.kind == v.serving[m.home].kind && !t.unblocked && !t.woken && t.acks == |t.bits| < Total(s)
            && m.origin !in t.bits
            && (t.kind.Read? && m.home in t.bits ==> t.answered) && (t.kind.Read? && m.origin == m.home ==> m.data)
            && m.home < Total(s)
            && (forall d: Node :: d in t.bits <==> d < Total(s) && v.serving[m.home].sockets[d] == Recorded)
  {
    var x := (m.source, m.line);
    assert ServiceOk(v.serving[m.home], m.home, Total(s));
    assert TransactionOk(s.requesters[m.source][m.line], v.pending[x], v, Total(s));
  }

  lemma RecordServices(v: View, x: Key, h: Node, d: Node, last: bool, total: nat)
    requires ServicesOk(v, total) && h in v.serving && Serves(v.serving, h, x.1, x.0) && !v.serving[h].done
    requires d < total && v.serving[h].sockets[d].Acked?
    requires x in v.pending && v.pending[x] == Pending(v.serving[h].kind, h, Serving)
    requires last == forall e: Node :: e < total && e != d ==> v.serving[h].sockets[e] == Recorded
    ensures ServicesOk(Put(With(v, h, Recording(v.serving[h], d, last)), x, Collected(v.pending[x], last)), total)
  {
    var b, p := Recording(v.serving[h], d, last), Collected(v.pending[x], last);
    RecordService(v.serving[h], h, d, last, total);
    hide ServiceOk, Recording;
    if last { LastServices(v, x, h, b, p, total); } else { assert v.pending[x := p] == v.pending; }
  }

  /** A service that is done, and its transaction no longer in service. */
  lemma LastServices(v: View, x: Key, h: Node, b: Service, p: Pending, total: nat)
    requires ServicesOk(v, total) && h in v.serving && Serves(v.serving, h, x.1, x.0)
    requires x in v.pending && v.pending[x].home == h && v.pending[x].stage == Serving && p.stage != Serving
    requires ServiceOk(b, h, total) && b.line == x.1 && b.source == x.0 && b.done
    ensures ServicesOk(Put(With(v, h, b), x, p), total)
  {
    hide ServiceOk;
    var v' := Put(With(v, h, b), x, p);
    forall k: Node | k in v'.serving && !v'.serving[k].done
      ensures var y := (v'.serving[k].source, v'.serving[k].line);
              y in v'.pending && v'.pending[y] == Pending(v'.serving[k].kind, k, Serving)
    {
      assert k != h && !v.serving[k].done;
    }
  }

  lemma RecordService(a: Service, h: Node, d: Node, last: bool, total: nat)
    requires ServiceOk(a, h, total) && d < total && a.sockets[d].Acked?
    requires last == forall e: Node :: e < total && e != d ==> a.sockets[e] == Recorded
    ensures var b := Recording(a, d, last);
            ServiceOk(b, h, total) && b.line == a.line && b.source == a.source && b.kind == a.kind && b.done == last
  {
  }

  lemma RecordTransactions(rs: seq<Requester>, v: View, x: Key, h: Node, d: Node, last: bool, t': Transaction)
    requires Transactions(rs, v) && h in v.serving && Serves(v.serving, h, x.1, x.0) && !v.serving[h].done
    requires d < |v.serving[h].sockets| && |v.serving[h].sockets| == |rs| && ServicesOk(v, |rs|)
    requires x in v.pending && v.pending[x] == Pending(v.serving[h].kind, h, Serving)
    requires TransactionOk(t', Collected(v.pending[x], last),
                           Put(With(v, h, Recording(v.serving[h], d, last)), x, Collected(v.pending[x], last)), |rs|)
    ensures Transactions(rs[x.0 := Record(rs[x.0], x.1, t')],
                         Put(With(v, h, Recording(v.serving[h], d, last)), x, Collected(v.pending[x], last)))
  {
    var v' := Put(With(v, h, Recording(v.serving[h], d, last)), x, Collected(v.pending[x], last));
    var rs' := rs[x.0 := Record(rs[x.0], x.1, t')];
    forall y: Key | y in v'.pending ensures TransactionOk(rs'[y.0][y.1], v'.pending[y], v', |rs'|) {
      if y != x {
        assert TransactionOk(rs[y.0][y.1], v.pending[y], v, |rs|);
      }
    }
  }

  lemma RecordEngines(es: seq<Engine>, v: View, h: Node, d: Node, last: bool)
    requires Engines(es, v.serving) && h in v.serving && d < |v.serving[h].sockets| && v.serving[h].sockets[d].Acked?
    requires d < |es|
    ensures Engines(es, v.serving[h := Recording(v.serving[h], d, last)])
  {
    var b := Recording(v.serving[h], d, last);
    forall o: Node | o < |es|
      ensures EngineCore(es[o], v.serving[h := b], o) && EngineLive(es[o], v.serving[h := b], o)
    {
      UnseenEngine(es[o], v.serving, h, b, o);
    }
  }

  lemma RecordNet(net: multiset<Message>, v: View, m: Message, last: bool)
    requires NetExact(net, v) && m in net && m.Ack? && !last
    requires SocketIs(v.serving, m.home, m.line, m.source, m.origin, Acked(m.data))
    requires !v.serving[m.home].done
    ensures NetExact(net - multiset{m}, With(v, m.home, Recording(v.serving[m.home], m.origin, false)))
  {
    BalancedNet(net, m, multiset{}, v, m.home, Recording(v.serving[m.home], m.origin, false), m.origin);
    assert net - multiset{m} + multiset{} == net - multiset{m};
  }

  lemma DoneNet(net: multiset<Message>, v: View, h: Node)
    requires NetExact(net, v) && h in v.serving && !v.serving[h].done
    ensures NetExact(net + multiset{Unblock(v.serving[h].line, v.serving[h].source, h)},
                     With(v, h, v.serving[h].(done := true)))
  {
    var a := v.serving[h];
    var u := Unblock(a.line, a.source, h);
    var v' := With(v, h, a.(done := true));
    forall m: Message ensures (net + multiset{u})[m] == Expected(v', m) {
      assert net[m] == Expected(v, m);
    }
  }

  lemma AckStep(s: System, v: View, m: Message, data: bool) returns (v': View)
    requires Inv(s, v) && m in s.net && m.Ack?
    ensures AssertsHold(s, m) && Inv(DeliverTo(s, m, data), v') && Falls(v, v', Total(s), s.caches)
  {
    hide Falls;
    InFlight(s.net, v, m);
    v' := AckAt(s, v, m);
  }

  lemma HomeInRange(s: System, v: View, h: Node)
    requires Inv(s, v) && h in v.serving
    ensures h < Total(s)
  {
    HomeBound(s, v, h);
  }

  lemma RecordFalls(v: View, x: Key, h: Node, d: Node, last: bool, p: Pending, n: nat, c: nat)
    requires h in v.serving && h < n && d < |v.serving[h].sockets| && v.serving[h].sockets[d].Acked?
    requires x in v.pending && v.pending[x].stage == Serving && p == Collected(v.pending[x], last)
    ensures Falls(v, Put(With(v, h, Recording(v.serving[h], d, last)), x, p), n, c)
  {
    FallsRecord(v, x, h, d, Recording(v.serving[h], d, last), p, n, c);
  }

  lemma AckAt(s: System, v: View, m: Message) returns (v': View)
    requires Inv(s, v) && m in s.net && m.Ack? && SocketIs(v.serving, m.home, m.line, m.source, m.origin, Acked(m.data))
    ensures m.source < Total(s) && m.origin < Total(s) && m.line in s.requesters[m.source]
    ensures var t := s.requesters[m.source][m.line];
            t.acks + 1 == Total(s) ==> |t.bits + {m.origin}| == Total(s) && (t.kind.Read? ==> t.answered || m.data)
    ensures Inv(AtRequester(s, m, m.source, OnAck(s.requesters[m.source], Total(s), m)), v')
            && Falls(v, v', Total(s), s.caches)
  {
    hide Falls, NetExact, Transactions, Homes, Engines, ServiceOk, Inv, ServicesOk, TransactionOk, Recording, Collected;
    HomeInRange(s, v, m.home);
    Awaiting(s, v, m);
    Parts(s, v);
    var x, h, d, t := (m.source, m.line), m.home, m.origin, s.requesters[m.source][m.line];
    var a, p := v.serving[h], v.pending[x];
    ServiceSize(a, h, Total(s));
    var last := t.acks + 1 == Total(s);
    LastMeansAll(a, t, d, Total(s));
    var b, p' := Recording(a, d, last), Collected(p, last);
    v' := Put(With(v, h, b), x, p');
    var t' := t.(acks := t.acks + 1, bits := t.bits + {d}, answered := t.answered || m.data);
    var t'' := if last then t'.(unblocked := true, woken := !t.kind.Write?) else t';
    CollectedOk(a, t, t'', d, m.data, last, p, v', Total(s), x);
    RecordServices(v, x, h, d, last, Total(s));
    RecordTransactions(s.requesters, v, x, h, d, last, t'');
    RecordEngines(s.engines, v, h, d, last);
    RecordHomes(s.homes, v, x, h, b, p');
    CollectNet(s.net, v, m, last, p');
    var o := OnAck(s.requesters[m.source], Total(s), m);
    assert o.sent == CollectSent(m, t.kind, last);
    RecordOwners(s.owner, v, x, h, d, last, Total(s));
    RecordFalls(v, x, h, d, last, p', Total(s), s.caches);
    Whole(AtRequester(s, m, m.source, o), v');
  }

  lemma RecordOwners(owner: Directory, v: View, x: Key, h: Node, d: Node, last: bool, total: nat)
    requires Owners(owner, v, total) && h in v.serving && x in v.pending && d < |v.serving[h].sockets|
    ensures Owners(owner, Put(With(v, h, Recording(v.serving[h], d, last)), x, Collected(v.pending[x], last)), total)
  {
  }

  function CollectSent(m: Message, kind: Kind, last: bool): multiset<Message>
    requires m.Ack?
  {
    if !last then multiset{}
    else multiset{Unblock(m.line, m.source, m.home)}
         + if kind.Write? then multiset{Store(m.line, m.source, m.home)} else multiset{}
  }

  lemma LastMeansAll(a: Service, t: Transaction, d: Node, total: nat)
    requires |a.sockets| == total && d < total && d !in t.bits && t.acks == |t.bits|
    requires forall e: Node :: e in t.bits <==> e < total && a.sockets[e] == Recorded
    ensures (t.acks + 1 == total) == forall e: Node :: e < total && e != d ==> a.sockets[e] == Recorded
    ensures |t.bits + {d}| == t.acks + 1
    ensures t.acks + 1 == total ==> forall e: Node :: e < total ==> e in t.bits + {d}
  {
    FullSet(t.bits + {d}, total);
    if forall e: Node :: e < total && e != d ==> a.sockets[e] == Recorded {
      forall e: Node | e < total ensures e in t.bits + {d} {}
    }
    if t.acks + 1 == total {
      forall e: Node | e < total && e != d ensures a.sockets[e] == Recorded { assert e in t.bits + {d}; }
    }
  }

  lemma CollectedOk(a: Service, t: Transaction, t'': Transaction, d: Node, data: bool, last: bool, p: Pending, v': View,
                    total: nat, x: Key)
    requires |a.sockets| == total && d < total && d !in t.bits && t.acks == |t.bits| < total && !t.unblocked && !t.woken
    requires forall e: Node :: e in t.bits <==> e < total && a.sockets[e] == Recorded
    requires last == (t.acks + 1 == total) && p.stage == Serving && t.kind == p.kind && |t.bits + {d}| == t.acks + 1
    requires last ==> forall e: Node :: e < total ==> e in t.bits + {d}
    requires p.home < total && (t.kind.Read? && p.home in t.bits ==> t.answered)
    requires (t.kind.Read? && d == p.home ==> data)
    requires t'' == var t' := t.(acks := t.acks + 1, bits := t.bits + {d}, answered := t.answered || data);
                    if last then t'.(unblocked := true, woken := !t.kind.Write?) else t'
    requires p.home in v'.serving && v'.serving[p.home] == Recording(a, d, last)
    ensures TransactionOk(t'', Collected(p, last), v', total)
  {
  }

  lemma RecordHomes(cs: seq<Home>, v: View, x: Key, h: Node, b: Service, p: Pending)
    requires Homes(cs, v) && h in v.serving && x in v.pending && v.pending[x].stage == Serving
    requires !p.stage.Held?
    ensures Homes(cs, Put(With(v, h, b), x, p))
  {
    NearHomes(cs, v, h, b);
    PutHomes(cs, With(v, h, b), x, p);
  }

  lemma CollectNet(net: multiset<Message>, v: View, m: Message, last: bool, p': Pending)
    requires NetExact(net, v) && m in net && m.Ack? && !v.serving[m.home].done
    requires SocketIs(v.serving, m.home, m.line, m.source, m.origin, Acked(m.data))
    requires (m.source, m.line) in v.pending && v.pending[(m.source, m.line)].stage == Serving
    requires v.pending[(m.source, m.line)].home == m.home
    requires p' == Collected(v.pending[(m.source, m.line)], last)
    ensures var x := (m.source, m.line);
            NetExact(net - multiset{m} + CollectSent(m, v.pending[x].kind, last),
                     Put(With(v, m.home, Recording(v.serving[m.home], m.origin, last)), x, p'))
  {
    hide NetExact;
    var x, a, p := (m.source, m.line), v.serving[m.home], v.pending[(m.source, m.line)];
    RecordNet(net, v, m, false);
    var v1 := With(v, m.home, Recording(a, m.origin, false));
    if last {
      DoneNet(net - multiset{m}, v1, m.home);
      var v2 := With(v1, m.home, v1.serving[m.home].(done := true));
      assert v2.serving == With(v, m.home, Recording(a, m.origin, true)).serving;
      var net2 := net - multiset{m} + multiset{Unblock(m.line, m.source, m.home)};
      PutNet(net2, v2, x, p');
      assert net2 - MsgsAt(v2, x) + PendingMsgs(x, p') == net - multiset{m} + CollectSent(m, p.kind, last);
    } else {
      assert Put(v1, x, p') == v1;
      assert net - multiset{m} + CollectSent(m, p.kind, last) == net - multiset{m};
    }
  }
}
