/** Requests and unblock messages at the home node preserve the invariant. */
module FabricHomes {
  import opened Wrappers
  import opened Fabric
  import opened FabricView
  import opened FabricRank
  import opened FabricSteps
  import opened FabricEngine

  // ---------------------------------------------------------------- a request finds its home busy

  lemma HoldHomes(cs: seq<Home>, v: View, x: Key, h: Node, r: Message)
    requires Homes(cs, v) && h < |cs| && cs[h].busy && r.Req? && r.home == h && x == (r.source, r.line)
    requires x in v.pending && v.pending[x] == Pending(r.kind, h, Flying(r.again))
    ensures Homes(cs[h := cs[h].(queue := cs[h].queue + [Label(r, false)])], Put(v, x, v.pending[x].(stage := Held)))
  {
    var v' := Put(v, x, v.pending[x].(stage := Held));
    var cs' := cs[h := cs[h].(queue := cs[h].queue + [Label(r, false)])];
    forall k: Node | k < |cs'| ensures HomeOk(cs'[k], v', k) {
      assert HomeOk(cs[k], v, k);
      forall m: Message ensures multiset(cs'[k].queue)[m] == One(HeldAt(v', k, m)) {
        assert multiset(cs[k].queue)[m] == One(HeldAt(v, k, m));
      }
      if v.lively && !cs'[k].busy && cs'[k].queue != [] {
        var y: Key :| y in v.pending && v.pending[y].stage == Flying(true) && v.pending[y].home == k;
        assert y in v'.pending && y != x;
      }
    }
  }

  lemma HoldStep(s: System, v: View, m: Message) returns (v': View)
    requires Inv(s, v) && m in s.net && m.Req? && m.home < Total(s) && s.homes[m.home].busy
    requires (m.source, m.line) in v.pending
    requires v.pending[(m.source, m.line)] == Pending(m.kind, m.home, Flying(m.again))
    ensures Inv(AtHome(s, m, m.home, OnReq(s.homes[m.home], Total(s), m)), v') && Falls(v, v', Total(s), s.caches)
  {
    hide Falls, NetExact, Transactions, Homes, Engines, ServicesOk, Inv, TransactionOk;
    Parts(s, v);
    var x, h := (m.source, m.line), m.home;
    var p := v.pending[x].(stage := Held);
    v' := Put(v, x, p);
    PutOwners(s.owner, v, x, p, Total(s));
    PutServices(v, x, p, Total(s));
    KeepTransaction(s.requesters, v, x, p);
    HoldHomes(s.homes, v, x, h, m);
    PutNet(s.net, v, x, p);
    assert s.net - MsgsAt(v, x) + PendingMsgs(x, p) == s.net - multiset{m} + multiset{};
    FallsHold(v, x, Total(s), s.caches);
    Whole(AtHome(s, m, h, OnReq(s.homes[h], Total(s), m)), v');
  }

  /** Flying and Held look the same to the requester. */
  lemma KeepTransaction(rs: seq<Requester>, v: View, x: Key, p: Pending)
    requires Transactions(rs, v) && x in v.pending && p.kind == v.pending[x].kind
    requires (v.pending[x].stage.Flying? || v.pending[x].stage.Held?) && (p.stage.Flying? || p.stage.Held?)
    ensures Transactions(rs, Put(v, x, p))
  {
    var v' := Put(v, x, p);
    forall y: Key | y in v'.pending ensures TransactionOk(rs[y.0][y.1], v'.pending[y], v', |rs|) {
      assert TransactionOk(rs[y.0][y.1], v.pending[y], v, |rs|);
    }
  }

  // ---------------------------------------------------------------- a request is taken into service

  function Opening(r: Message, total: nat): Service
    requires r.Req?
  {
    Service(r.line, r.source, r.kind, seq(total, _ => Fresh(false)), if r.kind.Read? then Reading else NoDram, false)
  }

  lemma OpenServices(v: View, r: Message, total: nat)
    requires ServicesOk(v, total) && r.Req? && r.home !in v.serving && r.home < total && r.source < total
    requires (r.source, r.line) in v.pending
    requires v.pending[(r.source, r.line)] == Pending(r.kind, r.home, Flying(r.again))
    ensures ServicesOk(Put(With(v, r.home, Opening(r, total)), (r.source, r.line), Pending(r.kind, r.home, Serving)), total)
  {
    var a := Opening(r, total);
    assert ServiceOk(a, r.home, total);
  }

  lemma OpenTransactions(rs: seq<Requester>, v: View, r: Message)
    requires Transactions(rs, v) && r.Req? && r.home !in v.serving && |rs| >= 1 && ServicesOk(v, |rs|)
    requires (r.source, r.line) in v.pending
    requires v.pending[(r.source, r.line)] == Pending(r.kind, r.home, Flying(r.again))
    ensures Transactions(rs, Put(With(v, r.home, Opening(r, |rs|)), (r.source, r.line), Pending(r.kind, r.home, Serving)))
  {
    var x := (r.source, r.line);
    var v' := Put(With(v, r.home, Opening(r, |rs|)), x, Pending(r.kind, r.home, Serving));
    forall y: Key | y in v'.pending ensures TransactionOk(rs[y.0][y.1], v'.pending[y], v', |rs|) {
      assert TransactionOk(rs[y.0][y.1], v.pending[y], v, |rs|);
    }
  }

  lemma OpenEngine(e: Engine, sv: Services, d: Node, r: Message, total: nat)
    requires EngineCore(e, sv, d) && EngineLive(e, sv, d) && r.Req? && r.home !in sv
    ensures EngineCore(e, sv[r.home := Opening(r, total)], d) && EngineLive(e, sv[r.home := Opening(r, total)], d)
  {
    var sv' := sv[r.home := Opening(r, total)];
    SameEngine(e, sv, sv', d);
  }

  lemma OpenHomes(cs: seq<Home>, v: View, r: Message, a: Service)
    requires Homes(cs, v) && r.Req? && r.home < |cs| && !cs[r.home].busy
    requires (r.source, r.line) in v.pending
    requires v.pending[(r.source, r.line)] == Pending(r.kind, r.home, Flying(r.again))
    ensures Homes(cs[r.home := cs[r.home].(busy := true)],
                  Put(With(v, r.home, a), (r.source, r.line), Pending(r.kind, r.home, Serving)))
  {
    var x := (r.source, r.line);
    var v' := Put(With(v, r.home, a), x, Pending(r.kind, r.home, Serving));
    var cs' := cs[r.home := cs[r.home].(busy := true)];
    forall k: Node | k < |cs'| ensures HomeOk(cs'[k], v', k) {
      assert HomeOk(cs[k], v, k);
      forall m: Message ensures multiset(cs'[k].queue)[m] == One(HeldAt(v', k, m)) {
        assert multiset(cs[k].queue)[m] == One(HeldAt(v, k, m));
      }
      if v.lively && !cs'[k].busy && cs'[k].queue != [] {
        var y: Key :| y in v.pending && v.pending[y].stage == Flying(true) && v.pending[y].home == k;
        assert y in v'.pending && y != x;
      }
    }
  }

  lemma FanCount(r: Message, k: nat, m: Message)
    requires r.Req?
    ensures Fan(r, k)[m] ==
            One(m.Probe? && m.line == r.line && m.source == r.source && m.home == r.home
                && m.dest < k && m.kind == r.kind && !m.again)
  {
  }

  lemma OpenNet(net: multiset<Message>, v: View, r: Message, total: nat)
    requires NetExact(net, v) && r.Req? && r.home !in v.serving
    ensures NetExact(net + Fan(r, total)
                     + (if r.kind.Read? then multiset{DramRead(r.line, r.source, r.home)} else multiset{}),
                     With(v, r.home, Opening(r, total)))
  {
    var q := if r.kind.Read? then multiset{DramRead(r.line, r.source, r.home)} else multiset{};
    var v' := With(v, r.home, Opening(r, total));
    forall m: Message ensures (net + Fan(r, total) + q)[m] == Expected(v', m) {
      assert net[m] == Expected(v, m);
      OpenMessage(v, r, total, m);
    }
  }

  lemma OpenMessage(v: View, r: Message, total: nat, m: Message)
    requires r.Req? && r.home !in v.serving
    ensures Expected(With(v, r.home, Opening(r, total)), m) ==
            Expected(v, m) + Fan(r, total)[m] + One(r.kind.Read? && m == DramRead(r.line, r.source, r.home))
  {
    FanCount(r, total, m);
    hide Fan;
  }

  lemma TakenNet(net: multiset<Message>, v: View, r: Message, total: nat)
    requires NetExact(net, v) && r.Req? && r in net && r.home !in v.serving
    requires (r.source, r.line) in v.pending
    requires v.pending[(r.source, r.line)] == Pending(r.kind, r.home, Flying(r.again))
    ensures var q := if r.kind.Read? then multiset{DramRead(r.line, r.source, r.home)} else multiset{};
            NetExact(net - multiset{r} + (Fan(r, total) + q),
                     Put(With(v, r.home, Opening(r, total)), (r.source, r.line), Pending(r.kind, r.home, Serving)))
  {
    hide NetExact, Opening, Fan;
    var x, p, v1 := (r.source, r.line), Pending(r.kind, r.home, Serving), With(v, r.home, Opening(r, total));
    var q := if r.kind.Read? then multiset{DramRead(r.line, r.source, r.home)} else multiset{};
    OpenNet(net, v, r, total);
    PutNet(net + Fan(r, total) + q, v1, x, p);
    assert MsgsAt(v1, x) == multiset{r} && PendingMsgs(x, p) == multiset{};
    assert net + Fan(r, total) + q - multiset{r} + multiset{} == net - multiset{r} + (Fan(r, total) + q);
  }

  lemma OpenStep(s: System, v: View, m: Message) returns (v': View)
    requires Inv(s, v) && m in s.net && m.Req? && m.home < Total(s) && !s.homes[m.home].busy
    requires v.single ==> Apart(v.serving, m.line)
    requires (m.source, m.line) in v.pending
    requires v.pending[(m.source, m.line)] == Pending(m.kind, m.home, Flying(m.again))
    ensures Inv(AtHome(s, m, m.home, OnReq(s.homes[m.home], Total(s), m)), v') && Falls(v, v', Total(s), s.caches)
  {
    hide Falls, NetExact, Transactions, Engines, ServicesOk, Inv, TransactionOk, Opening, Homes;
    hide EngineCore, EngineLive, Owners;
    Parts(s, v);
    var x, h, total := (m.source, m.line), m.home, Total(s);
    IdleHome(s, v, h);
    PendingSource(s.requesters, v, x);
    var a := Opening(m, total);
    var p := Pending(m.kind, h, Serving);
    v' := Put(With(v, h, a), x, p);
    OpenServices(v, m, total);
    OpenTransactions(s.requesters, v, m);
    OpenEngines(s.engines, v.serving, m, total);
    OpenHomes(s.homes, v, m, a);
    TakenNet(s.net, v, m, total);
    OpenOwners(s.owner, v, m, total);
    OpeningFresh(m, total);
    FallsOpen(v, x, h, a, p, total, s.caches);
    Whole(AtHome(s, m, h, OnReq(s.homes[h], total, m)), v');
  }

  lemma OpeningFresh(r: Message, total: nat)
    requires r.Req?
    ensures |Opening(r, total).sockets| == total
    ensures forall d :: 0 <= d < total ==> Opening(r, total).sockets[d] == Fresh(false)
  {
  }

  lemma OpenOwners(owner: Directory, v: View, r: Message, total: nat)
    requires Owners(owner, v, total) && r.Req? && (r.source, r.line) in v.pending
    requires v.pending[(r.source, r.line)].home == r.home && (v.single ==> Apart(v.serving, r.line))
    ensures Owners(owner, Put(With(v, r.home, Opening(r, total)), (r.source, r.line), Pending(r.kind, r.home, Serving)),
                   total)
  {
  }

  lemma OpenEngines(es: seq<Engine>, sv: Services, r: Message, total: nat)
    requires Engines(es, sv) && r.Req? && r.home !in sv
    ensures Engines(es, sv[r.home := Opening(r, total)])
  {
    forall d: Node | d < |es|
      ensures EngineCore(es[d], sv[r.home := Opening(r, total)], d)
      ensures EngineLive(es[d], sv[r.home := Opening(r, total)], d)
    {
      OpenEngine(es[d], sv, d, r, total);
    }
  }

  lemma IdleHome(s: System, v: View, h: Node)
    requires Inv(s, v) && h < Total(s)
    ensures HomeOk(s.homes[h], v, h) && (s.homes[h].busy <==> h in v.serving)
  {
  }

  lemma PendingSource(rs: seq<Requester>, v: View, x: Key)
    requires Transactions(rs, v) && x in v.pending
    ensures x.0 < |rs|
  {
  }

  lemma ReqStep(s: System, v: View, m: Message, data: bool) returns (v': View)
    requires Inv(s, v) && m in s.net && m.Req? && Admissible(s, v, m, data)
    ensures AssertsHold(s, m) && Inv(DeliverTo(s, m, data), v') && Falls(v, v', Total(s), s.caches)
  {
    hide Falls;
    InFlight(s.net, v, m);
    var x := (m.source, m.line);
    assert x in v.pending && v.pending[x] == Pending(m.kind, m.home, Flying(m.again));
    assert m.home < Total(s);
    if s.homes[m.home].busy { v' := HoldStep(s, v, m); } else { v' := OpenStep(s, v, m); }
  }

  // ---------------------------------------------------------------- an unblock message reaches the home

  lemma CloseServices(v: View, h: Node, total: nat)
    requires ServicesOk(v, total) && h in v.serving && v.serving[h].done
    ensures ServicesOk(v.(serving := v.serving - {h}), total)
  {
  }

  lemma CloseTransactions(rs: seq<Requester>, v: View, h: Node)
    requires Transactions(rs, v) && h in v.serving
    ensures Transactions(rs, v.(serving := v.serving - {h}))
  {
    var v' := v.(serving := v.serving - {h});
    forall y: Key | y in v'.pending ensures TransactionOk(rs[y.0][y.1], v'.pending[y], v', |rs|) {
      assert TransactionOk(rs[y.0][y.1], v.pending[y], v, |rs|);
    }
  }

  lemma CloseEngine(e: Engine, sv: Services, d: Node, h: Node, total: nat)
    requires EngineCore(e, sv, d) && EngineLive(e, sv, d) && h in sv && ServiceOk(sv[h], h, total) && sv[h].done
    requires d < total
    ensures EngineCore(e, sv - {h}, d) && EngineLive(e, sv - {h}, d)
  {
    var sv' := sv - {h};
    assert sv[h].sockets[d] == Recorded;
    assert sv[h].sockets[h] == Recorded;
    SameEngine(e, sv, sv', d);
  }

  lemma CloseEngines(es: seq<Engine>, v: View, h: Node)
    requires Engines(es, v.serving) && h in v.serving && ServiceOk(v.serving[h], h, |es|) && v.serving[h].done
    ensures Engines(es, v.serving - {h})
  {
    forall d: Node | d < |es|
      ensures EngineCore(es[d], v.serving - {h}, d) && EngineLive(es[d], v.serving - {h}, d)
    {
      CloseEngine(es[d], v.serving, d, h, |es|);
    }
  }

  lemma CloseNet(net: multiset<Message>, v: View, m: Message, total: nat)
    requires NetExact(net, v) && m.Unblock? && m in net && Serves(v.serving, m.home, m.line, m.source)
    requires v.serving[m.home].done && ServiceOk(v.serving[m.home], m.home, total)
    ensures NetExact(net - multiset{m}, v.(serving := v.serving - {m.home}))
  {
    var v' := v.(serving := v.serving - {m.home});
    assert v.serving[m.home].sockets[m.home] == Recorded;
    forall k: Message ensures (net - multiset{m})[k] == Expected(v', k) {
      assert net[k] == Expected(v, k);
    }
  }

  /** The first parked request, if any: it is known and waits for this home. */
  lemma FirstHeld(c: Home, v: View, h: Node)
    requires HomeOk(c, v, h) && c.queue != []
    ensures var r := c.queue[0];
            r.Req? && r.home == h && !r.again && (r.source, r.line) in v.pending
            && v.pending[(r.source, r.line)] == Pending(r.kind, h, Held)
  {
    assert multiset(c.queue)[c.queue[0]] >= 1;
    assert multiset(c.queue)[c.queue[0]] == One(HeldAt(v, h, c.queue[0]));
  }

  lemma CloseHomesEmpty(cs: seq<Home>, v: View, h: Node)
    requires Homes(cs, v) && h < |cs| && h in v.serving && cs[h].queue == []
    ensures Homes(cs[h := Home(false, [])], v.(serving := v.serving - {h}))
  {
    var cs', v' := cs[h := Home(false, [])], v.(serving := v.serving - {h});
    forall k: Node | k < |cs'| ensures HomeOk(cs'[k], v', k) {
      assert HomeOk(cs[k], v, k);
      forall m: Message ensures multiset(cs'[k].queue)[m] == One(HeldAt(v', k, m)) {
        assert multiset(cs[k].queue)[m] == One(HeldAt(v, k, m));
      }
    }
  }

  lemma CloseHomesNext(cs: seq<Home>, v: View, h: Node, r: Message, o: Node)
    requires Homes(cs, v) && h < |cs| && h in v.serving && cs[h].queue != [] && r == cs[h].queue[0]
    requires r.Req? && r.home == h && !r.again && (r.source, r.line) in v.pending
    requires v.pending[(r.source, r.line)] == Pending(r.kind, h, Held)
    requires v.lively ==> o == h || |cs[h].queue| == 1
    ensures Homes(cs[h := Home(false, cs[h].queue[1..])],
                  Put(v.(serving := v.serving - {h}), (r.source, r.line), Pending(r.kind, o, Flying(true))))
  {
    var x := (r.source, r.line);
    var cs' := cs[h := Home(false, cs[h].queue[1..])];
    var v' := Put(v.(serving := v.serving - {h}), x, Pending(r.kind, o, Flying(true)));
    forall k: Node | k < |cs'| ensures HomeOk(cs'[k], v', k) {
      assert HomeOk(cs[k], v, k);
      assert cs[h].queue == [r] + cs[h].queue[1..];
      forall m: Message ensures multiset(cs'[k].queue)[m] == One(HeldAt(v', k, m)) {
        assert multiset(cs[k].queue)[m] == One(HeldAt(v, k, m));
        assert multiset(cs[h].queue)[m] == multiset([r])[m] + multiset(cs[h].queue[1..])[m];
      }
      if k == h { assert x in v'.pending; }
      else if v.lively && !cs'[k].busy && cs'[k].queue != [] {
        var y: Key :| y in v.pending && v.pending[y].stage == Flying(true) && v.pending[y].home == k;
        assert y in v'.pending && y != x;
      }
    }
  }

  lemma CloseFalls(v: View, h: Node, n: nat, c: nat)
    requires h in v.serving && h < n
    ensures Falls(v, v.(serving := v.serving - {h}), n, c)
  {
    FallsClose(v, h, n, c);
  }

  /** The first parked request and the node that owns its line by now. */
  lemma NextRequest(s: System, v: View, m: Message)
    requires Inv(s, v) && m.Unblock? && m.home < |s.homes| && s.homes[m.home].queue != []
    requires v.lively ==> !Strands(s, m)
    ensures var h, r := m.home, s.homes[m.home].queue[0];
            && r.Req? && r.home == h && !r.again && (r.source, r.line) in v.pending
            && v.pending[(r.source, r.line)] == Pending(r.kind, h, Held)
            && r.line in s.owner && s.owner[r.line] < Total(s) && (v.still ==> s.owner[r.line] == h)
            && (v.lively ==> s.owner[r.line] == h || |s.homes[h].queue| == 1)
  {
    FirstHeld(s.homes[m.home], v, m.home);
  }

  lemma NextNet(net: multiset<Message>, v: View, r: Message, owner: Directory)
    requires NetExact(net, v) && r.Req? && r.line in owner
    requires (r.source, r.line) in v.pending && v.pending[(r.source, r.line)].stage == Held
    ensures NetExact(net + multiset{Requeued(r, owner)},
                     Put(v, (r.source, r.line), Pending(r.kind, owner[r.line], Flying(true))))
  {
    hide NetExact;
    var x, p := (r.source, r.line), Pending(r.kind, owner[r.line], Flying(true));
    PutNet(net, v, x, p);
    assert MsgsAt(v, x) == multiset{} && PendingMsgs(x, p) == multiset{Requeued(r, owner)};
    assert net - multiset{} + PendingMsgs(x, p) == net + multiset{Requeued(r, owner)};
  }

  lemma UnblockAt(s: System, v: View, m: Message) returns (v': View)
    requires Inv(s, v) && m in s.net && m.Unblock? && Serves(v.serving, m.home, m.line, m.source)
    requires v.serving[m.home].done
    requires v.lively ==> !Strands(s, m)
    ensures m.home < Total(s) && s.homes[m.home].busy
    ensures s.homes[m.home].queue != [] ==> s.homes[m.home].queue[0].line in s.owner
    ensures Inv(AtHome(s, m, m.home, OnUnblock(s.homes[m.home], s.owner)), v') && Falls(v, v', Total(s), s.caches)
  {
    hide Falls, NetExact, Transactions, Engines, ServicesOk, Inv, TransactionOk, Homes, ServiceOk;
    hide Owners, Requeued, Strands;
    var h := m.home;
    ServiceHome(s, v, h);
    Parts(s, v);
    IdleHome(s, v, h);
    var v1 := v.(serving := v.serving - {h});
    CloseServices(v, h, Total(s));
    CloseTransactions(s.requesters, v, h);
    CloseEngines(s.engines, v, h);
    CloseNet(s.net, v, m, Total(s));
    CloseOwners(s.owner, v, h, Total(s));
    var c := s.homes[h];
    if c.queue == [] {
      v' := v1;
      CloseFalls(v, h, Total(s), s.caches);
      CloseHomesEmpty(s.homes, v, h);
      assert s.net - multiset{m} + multiset{} == s.net - multiset{m};
    } else {
      NextRequest(s, v, m);
      var r := c.queue[0];
      var x, o := (r.source, r.line), s.owner[r.line];
      var p := Pending(r.kind, o, Flying(true));
      v' := Put(v1, x, p);
      PutOwners(s.owner, v1, x, p, Total(s));
      FallsCloseNext(v, h, x, p, Total(s), s.caches);
      PutServices(v1, x, p, Total(s));
      KeepTransaction(s.requesters, v1, x, p);
      CloseHomesNext(s.homes, v, h, r, o);
      NextNet(s.net - multiset{m}, v1, r, s.owner);
    }
    Whole(AtHome(s, m, h, OnUnblock(c, s.owner)), v');
  }

  lemma CloseOwners(owner: Directory, v: View, h: Node, total: nat)
    requires Owners(owner, v, total)
    ensures Owners(owner, v.(serving := v.serving - {h}), total)
  {
  }

  lemma ServiceHome(s: System, v: View, h: Node)
    requires Inv(s, v) && h in v.serving
    ensures h < Total(s) && h < |s.homes| && ServiceOk(v.serving[h], h, Total(s))
  {
    assert ServiceOk(v.serving[h], h, Total(s));
  }

  lemma UnblockStep(s: System, v: View, m: Message, data: bool) returns (v': View)
    requires Inv(s, v) && m in s.net && m.Unblock? && Admissible(s, v, m, data)
    ensures AssertsHold(s, m) && Inv(DeliverTo(s, m, data), v') && Falls(v, v', Total(s), s.caches)
  {
    hide Falls;
    InFlight(s.net, v, m);
    v' := UnblockAt(s, v, m);
  }
}
