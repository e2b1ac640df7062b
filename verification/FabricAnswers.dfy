/** Answers of local caches and local DRAM, and evictions, preserve the invariant. */
module FabricAnswers {
  import opened Requests
  import opened Wrappers
  import opened Fabric
  import opened FabricView
  import opened FabricRank
  import opened FabricSteps
  import opened FabricEngine

  /** m is an answer in flight for socket d of the service at h. */
  predicate Answers(sv: Services, m: Message, h: Node, d: Node)
  {
    && (m.CacheAck? || m.DramAck?) && m.home == h && Serves(sv, h, m.line, m.source) && d < |sv[h].sockets|
    && (m.CacheAck? ==> m.dest == d && m.kind == sv[h].kind && sv[h].sockets[d].Probing? && sv[h].sockets[d].acks >= 1)
    && (m.DramAck? ==> d == h && sv[h].dram == Replied)
  }

  /** The service once the answer has been counted by the engine of socket d. */
  function Counts(a: Service, m: Message, d: Node): Service
    requires d < |a.sockets|
    requires m.CacheAck? ==> a.sockets[d].Probing? && a.sockets[d].acks >= 1
  {
    if m.CacheAck? then a.(sockets := a.sockets[d := Probing(a.sockets[d].probes, a.sockets[d].acks - 1)])
    else a.(dram := Counted)
  }

  /** The service once the engine of socket d is done, with the given next state of the socket. */
  function Concludes(a: Service, m: Message, d: Node, k: Socket): Service
    requires d < |a.sockets|
  {
    a.(sockets := a.sockets[d := k], dram := if m.DramAck? then Counted else a.dram)
  }

  /** An unmatched answer can only be an early one from DRAM, and only one per line. */
  lemma Unmatched(e: Engine, sv: Services, m: Message, h: Node, d: Node)
    requires EngineCore(e, sv, d) && Answers(sv, m, h, d) && !(e.busy && e.line == m.line)
    ensures m.DramAck? && m.line !in e.early && !Occupies(sv, h, d)
  {
    assert m.CacheAck? ==> Occupies(sv, h, d);
  }

  lemma Matched(e: Engine, sv: Services, m: Message, h: Node, d: Node)
    requires EngineCore(e, sv, d) && Answers(sv, m, h, d) && Occupies(sv, h, d)
    requires ServiceOk(sv[h], h, |sv[h].sockets|)
    ensures e.busy && e.line == m.line && sv[h].sockets[d].Probing? && e.owed == Owed(sv[h], h, d) >= 1
    ensures forall k: Node :: Occupies(sv, k, d) ==> k == h
    ensures e.invalidating == sv[h].kind.Invalidate?
    ensures e.owed == 1 && d == h && sv[h].kind.Read? ==> m.DramAck? || e.memory
  {
  }

  lemma EarlyEngine(e: Engine, sv: Services, m: Message, h: Node, d: Node)
    requires EngineCore(e, sv, d) && EngineLive(e, sv, d) && Answers(sv, m, h, d) && !(e.busy && e.line == m.line)
    ensures var b := sv[h].(dram := Early);
            m.DramAck? && EngineCore(OnLocalAck(e, d, m, true).state, sv[h := b], d)
            && EngineLive(OnLocalAck(e, d, m, true).state, sv[h := b], d)
  {
    Unmatched(e, sv, m, h, d);
    var b := sv[h].(dram := Early);
    var sv' := sv[h := b];
    SameParked(e.queue, sv, sv', d);
    hide ParkedExact;
    forall k: Node ensures Occupies(sv', k, d) == Occupies(sv, k, d) {}
    if e.busy { var k: Node :| Occupies(sv, k, d); assert Occupies(sv', k, d); }
    if !e.busy && e.queue != [] {
      var k: Node :| ProbeIs(sv, k, d, Fresh(true));
      assert ProbeIs(sv', k, d, Fresh(true));
    }
  }

  lemma CountedEngine(e: Engine, sv: Services, m: Message, h: Node, d: Node, data: bool)
    requires EngineCore(e, sv, d) && Answers(sv, m, h, d) && Occupies(sv, h, d)
    requires ServiceOk(sv[h], h, |sv[h].sockets|) && e.owed != 1
    ensures EngineCore(Noted(e, m, data), sv[h := Counts(sv[h], m, d)], d)
  {
    Matched(e, sv, m, h, d);
    var b := Counts(sv[h], m, d);
    KeepParked(e.queue, sv, h, d, b);
    hide ParkedExact;
    var sv' := sv[h := b];
    forall k: Node ensures Occupies(sv', k, d) == Occupies(sv, k, d) {}
    assert Occupies(sv', h, d);
  }

  lemma EvictingEngine(e: Engine, sv: Services, m: Message, h: Node, d: Node, data: bool)
    requires EngineCore(e, sv, d) && Answers(sv, m, h, d) && Occupies(sv, h, d)
    requires ServiceOk(sv[h], h, |sv[h].sockets|) && e.owed == 1
    ensures EngineCore(Noted(e, m, data), sv[h := Concludes(sv[h], m, d, Evicting)], d)
  {
    Matched(e, sv, m, h, d);
    var b := Concludes(sv[h], m, d, Evicting);
    KeepParked(e.queue, sv, h, d, b);
    hide ParkedExact;
    var sv' := sv[h := b];
    forall k: Node ensures Occupies(sv', k, d) == Occupies(sv, k, d) {}
    assert Occupies(sv', h, d);
  }

  /** Once the only occupant is done, the engine may be released. */
  lemma DoneEngine(e: Engine, sv: Services, h: Node, d: Node, b: Service)
    requires EngineCore(e, sv, d) && Occupies(sv, h, d) && Near(sv[h], b, h, d) && b.sockets[d].Acked?
    requires forall k: Node :: Occupies(sv, k, d) ==> k == h
    requires (sv[h].dram == Early) == (b.dram == Early)
    ensures EngineCore(Idle(e), sv[h := b], d)
  {
    KeepParked(e.queue, sv, h, d, b);
    hide ParkedExact;
    var sv' := sv[h := b];
    forall k: Node | k != h ensures Occupies(sv', k, d) == Occupies(sv, k, d) {}
  }

  predicate AnswerFor(a: Service, m: Message, h: Node, d: Node)
  {
    && d < |a.sockets| && a.sockets[d].Probing? && m.home == h && m.line == a.line && m.source == a.source
    && ((m.CacheAck? && m.dest == d && m.kind == a.kind && a.sockets[d].acks >= 1)
        || (m.DramAck? && d == h && a.dram == Replied))
  }

  lemma CountedService(a: Service, m: Message, h: Node, d: Node, total: nat)
    requires ServiceOk(a, h, total) && AnswerFor(a, m, h, d)
    ensures var b := Counts(a, m, d);
            ServiceOk(b, h, total) && Near(a, b, h, d) && b.sockets[d] != Recorded && Balanced(m, multiset{}, a, b, h, d)
  {
  }

  /** The last answer is the only message its socket still accounts for. */
  lemma LastAnswer(a: Service, m: Message, h: Node, d: Node)
    requires AnswerFor(a, m, h, d) && Owed(a, h, d) == 1
    ensures m.CacheAck? ==> SocketMsgs(a, h, d) == multiset{m}
    ensures m.DramAck? ==> SocketMsgs(a, h, d) == multiset{} && DramMsgs(a, h) == multiset{m}
  {
  }

  lemma ConcludedService(a: Service, m: Message, h: Node, d: Node, total: nat, k: Socket)
    requires ServiceOk(a, h, total) && AnswerFor(a, m, h, d) && Owed(a, h, d) == 1 && (k == Evicting || k.Acked?)
    requires k.Acked? && d == h && a.kind.Read? ==> k.data
    ensures var b := Concludes(a, m, d, k);
            && ServiceOk(b, h, total) && Near(a, b, h, d) && (a.dram == Early) == (b.dram == Early)
            && b.sockets[d] != Recorded
            && Balanced(m, multiset{if k.Acked? then Ack(m.line, m.source, m.home, d, k.data)
                                    else Evict(m.line, m.source, m.home, d)}, a, b, h, d)
  {
    LastAnswer(a, m, h, d);
  }

  // ---------------------------------------------------------------- the steps

  lemma EarlyStep(s: System, v: View, m: Message, h: Node, d: Node, data: bool) returns (v': View)
    requires Inv(s, v) && m in s.net && d < Total(s) && Answers(v.serving, m, h, d)
    requires !(s.engines[d].busy && s.engines[d].line == m.line)
    ensures m.DramAck? && m.line !in s.engines[d].early
    ensures Inv(AtEngine(s, m, d, OnLocalAck(s.engines[d], d, m, data)), v') && Falls(v, v', Total(s), s.caches)
  {
    hide Falls, Inv, Rest, NetExact, EngineCore, EngineLive, Balanced;
    Focus(s, v, d);
    var e, a := s.engines[d], v.serving[h];
    Unmatched(e, v.serving, m, h, d);
    EarlyEngine(e, v.serving, m, h, d);
    var b := a.(dram := Early);
    v' := With(v, h, b);
    EarlyService(s, v, m, h, d, e);
    NearRest(s, v, h, b, d);
    BalancedNet(s.net, m, multiset{}, v, h, b, d);
    EarlyLighter(a, d, s.caches);
    HomeBound(s, v, h);
    FallsNear(v, h, b, d, Total(s), s.caches);
    Assemble(s, v', m, d, OnLocalAck(e, d, m, data));
  }

  lemma EarlyService(s: System, v: View, m: Message, h: Node, d: Node, e: Engine)
    requires Rest(s, v, d) && m.DramAck? && Answers(v.serving, m, h, d) && !Occupies(v.serving, h, d)
    ensures var a := v.serving[h]; var b := a.(dram := Early);
            && ServiceOk(b, h, Total(s)) && Near(a, b, h, d) && a.sockets[d] != Recorded
            && Balanced(m, multiset{}, a, b, h, d)
  {
    RestServices(s, v, d, h);
  }

  /** The case split of a matched answer: the state it leaves behind and what it sends. */
  lemma MatchedStep(s: System, v: View, m: Message, h: Node, d: Node, data: bool) returns (v': View)
    requires Inv(s, v) && m in s.net && d < Total(s) && Answers(v.serving, m, h, d)
    requires Occupies(v.serving, h, d)
    ensures Inv(AtEngine(s, m, d, OnLocalAck(s.engines[d], d, m, data)), v') && Falls(v, v', Total(s), s.caches)
  {
    hide Falls, Inv, Rest, NetExact, EngineCore, EngineLive, Balanced, ServiceOk;
    hide ReleaseEngine, Concludes, Counts, SocketMsgs, DramMsgs;
    Focus(s, v, d);
    var e, a := s.engines[d], v.serving[h];
    ServiceSize(a, h, Total(s));
    Matched(e, v.serving, m, h, d);
    if e.owed != 1 {
      v' := CountStep(s, v, m, h, d, data);
    } else if e.invalidating && Noted(e, m, data).dirty {
      v' := EvictStart(s, v, m, h, d, data);
    } else {
      v' := AckStep(s, v, m, h, d, data);
    }
  }

  lemma CountStep(s: System, v: View, m: Message, h: Node, d: Node, data: bool) returns (v': View)
    requires Inv(s, v) && m in s.net && d < Total(s) && Answers(v.serving, m, h, d)
    requires Occupies(v.serving, h, d) && s.engines[d].owed != 1
    ensures Inv(AtEngine(s, m, d, Outcome(Noted(s.engines[d], m, data), multiset{})), v')
            && Falls(v, v', Total(s), s.caches)
  {
    hide Falls, Inv, Rest, NetExact, EngineCore, Balanced, ServiceOk, Counts;
    Focus(s, v, d);
    var e, a := s.engines[d], v.serving[h];
    ServiceSize(a, h, Total(s));
    Matched(e, v.serving, m, h, d);
    CountedService(a, m, h, d, Total(s));
    CountedEngine(e, v.serving, m, h, d, data);
    var b := Counts(a, m, d);
    v' := With(v, h, b);
    NearRest(s, v, h, b, d);
    BalancedNet(s.net, m, multiset{}, v, h, b, d);
    CountLighter(a, m, h, d, s.caches);
    HomeBound(s, v, h);
    FallsNear(v, h, b, d, Total(s), s.caches);
    Assemble(s, v', m, d, Outcome(Noted(e, m, data), multiset{}));
  }

  lemma EvictStart(s: System, v: View, m: Message, h: Node, d: Node, data: bool) returns (v': View)
    requires Inv(s, v) && m in s.net && d < Total(s) && Answers(v.serving, m, h, d)
    requires Occupies(v.serving, h, d) && s.engines[d].owed == 1
    ensures Inv(AtEngine(s, m, d, Outcome(Noted(s.engines[d], m, data),
                                          multiset{Evict(m.line, m.source, m.home, d)})), v')
                                                  && Falls(v, v', Total(s), s.caches)
  {
    hide Falls, Inv, Rest, NetExact, EngineCore, Balanced, ServiceOk, Concludes;
    Focus(s, v, d);
    var e, a := s.engines[d], v.serving[h];
    ServiceSize(a, h, Total(s));
    Matched(e, v.serving, m, h, d);
    ConcludedService(a, m, h, d, Total(s), Evicting);
    EvictingEngine(e, v.serving, m, h, d, data);
    var b := Concludes(a, m, d, Evicting);
    v' := With(v, h, b);
    NearRest(s, v, h, b, d);
    var sent := multiset{Evict(m.line, m.source, m.home, d)};
    BalancedNet(s.net, m, sent, v, h, b, d);
    ConcludeLighter(a, m, h, d, Evicting, s.caches);
    HomeBound(s, v, h);
    FallsNear(v, h, b, d, Total(s), s.caches);
    Assemble(s, v', m, d, Outcome(Noted(e, m, data), sent));
  }

  lemma EarlyLighter(a: Service, d: Node, c: nat)
    requires d < |a.sockets| && a.dram == Replied
    ensures Local(a.(dram := Early), d, c) < Local(a, d, c)
  {
  }

  lemma CountLighter(a: Service, m: Message, h: Node, d: Node, c: nat)
    requires AnswerFor(a, m, h, d)
    ensures |Counts(a, m, d).sockets| == |a.sockets| && Local(Counts(a, m, d), d, c) < Local(a, d, c)
  {
  }

  lemma ConcludeLighter(a: Service, m: Message, h: Node, d: Node, k: Socket, c: nat)
    requires AnswerFor(a, m, h, d) && Owed(a, h, d) == 1 && (k == Evicting || k.Acked?)
    ensures |Concludes(a, m, d, k).sockets| == |a.sockets| && Local(Concludes(a, m, d, k), d, c) + 1 < Local(a, d, c)
  {
  }

  /** Two units saved at the socket pay for the parked probe that the release may send. */
  lemma FinishFalls(v: View, h: Node, b: Service, d: Node, v': View, n: nat, c: nat)
    requires h in v.serving && h < n && Near(v.serving[h], b, h, d) && Local(b, d, c) + 1 < Local(v.serving[h], d, c)
    requires v' == With(v, h, b) || exists k: Node :: Unparks(With(v, h, b), v', k, d, n)
    ensures Falls(v, v', n, c)
  {
    DropsNear(v, h, b, d, n, c);
    if v' != With(v, h, b) {
      var k: Node :| Unparks(With(v, h, b), v', k, d, n);
      hide Local;
      FallsRelease(v, With(v, h, b), v', k, d, n, c);
    }
  }

  /** Acknowledging towards the requester and releasing the engine, common to answers and evictions. */
  lemma FinishStep(s: System, v: View, m: Message, h: Node, d: Node, e: Engine, b: Service, data: bool)
    returns (v': View)
    requires Inv(s, v) && m in s.net && d < Total(s) && h in v.serving && Occupies(v.serving, h, d)
    requires forall k: Node :: Occupies(v.serving, k, d) ==> k == h
    requires ServiceOk(b, h, Total(s)) && Near(v.serving[h], b, h, d) && b.sockets[d] == Acked(data)
    requires (v.serving[h].dram == Early) == (b.dram == Early)
    requires Balanced(m, multiset{Ack(m.line, m.source, m.home, d, data)}, v.serving[h], b, h, d)
    requires Idle(e) == Idle(s.engines[d]) && e.queue == s.engines[d].queue
    requires Local(b, d, s.caches) + 1 < Local(v.serving[h], d, s.caches)
    ensures Inv(AtEngine(s, m, d, Outcome(ReleaseEngine(e).state,
                                          ReleaseEngine(e).sent + multiset{Ack(m.line, m.source, m.home, d, data)})), v')
                                                  && Falls(v, v', Total(s), s.caches)
  {
    hide Falls, Inv, Rest, NetExact, EngineCore, Balanced, ServiceOk, ReleaseEngine, EngineLive;
    Focus(s, v, d);
    DoneEngine(s.engines[d], v.serving, h, d, b);
    var v1 := With(v, h, b);
    NearRest(s, v, h, b, d);
    var ack := multiset{Ack(m.line, m.source, m.home, d, data)};
    BalancedNet(s.net, m, ack, v, h, b, d);
    v' := Release(s, v1, d, e, s.net - multiset{m} + ack);
    var o := ReleaseEngine(e);
    assert s.net - multiset{m} + ack + o.sent == s.net - multiset{m} + (o.sent + ack);
    HomeBound(s, v, h);
    FinishFalls(v, h, b, d, v', Total(s), s.caches);
    Assemble(s, v', m, d, Outcome(o.state, o.sent + ack));
  }

  lemma AckStep(s: System, v: View, m: Message, h: Node, d: Node, data: bool) returns (v': View)
    requires Inv(s, v) && m in s.net && d < Total(s) && Answers(v.serving, m, h, d)
    requires Occupies(v.serving, h, d) && s.engines[d].owed == 1
    ensures var e := Noted(s.engines[d], m, data);
            Inv(AtEngine(s, m, d, Outcome(ReleaseEngine(e).state,
                                          ReleaseEngine(e).sent
                                          + multiset{Ack(m.line, m.source, m.home, d, e.dirty || e.memory)})), v')
                                                  && Falls(v, v', Total(s), s.caches)
  {
    hide Falls, Inv, Rest, NetExact, EngineCore, Balanced, ServiceOk, Concludes, ReleaseEngine;
    Focus(s, v, d);
    var e, a := s.engines[d], v.serving[h];
    ServiceSize(a, h, Total(s));
    Matched(e, v.serving, m, h, d);
    var e' := Noted(e, m, data);
    var k := Acked(e'.dirty || e'.memory);
    ConcludedService(a, m, h, d, Total(s), k);
    var b := Concludes(a, m, d, k);
    ConcludesAcked(a, m, d, k);
    ConcludeLighter(a, m, h, d, k, s.caches);
    v' := FinishStep(s, v, m, h, d, e', b, e'.dirty || e'.memory);
  }

  lemma ConcludesAcked(a: Service, m: Message, d: Node, k: Socket)
    requires d < |a.sockets|
    ensures Concludes(a, m, d, k).sockets[d] == k
  {
  }

  lemma EvictStep(s: System, v: View, m: Message, data: bool) returns (v': View)
    requires Inv(s, v) && m in s.net && m.Evict?
    ensures AssertsHold(s, m) && Inv(DeliverTo(s, m, data), v') && Falls(v, v', Total(s), s.caches)
  {
    hide Falls;
    InFlight(s.net, v, m);
    v' := EvictAt(s, v, m, m.home, m.dest);
  }

  lemma EvictAt(s: System, v: View, m: Message, h: Node, d: Node) returns (v': View)
    requires Inv(s, v) && m in s.net && m.Evict? && h == m.home && d == m.dest
    requires SocketIs(v.serving, h, m.line, m.source, d, Evicting)
    ensures d < Total(s) && Inv(AtEngine(s, m, d, OnEvicted(s.engines[d], d, m)), v')
            && Falls(v, v', Total(s), s.caches)
  {
    hide Falls, NetExact, Transactions, Homes, Owners, ReleaseEngine;
    assert ServiceOk(v.serving[h], h, Total(s));
    Focus(s, v, d);
    var a := v.serving[h];
    var b := a.(sockets := a.sockets[d := Acked(true)]);
    assert Occupies(v.serving, h, d);
    OneOccupant(s.engines[d], v.serving, h, d);
    v' := FinishStep(s, v, m, h, d, s.engines[d], b, true);
  }

  lemma OneOccupant(e: Engine, sv: Services, h: Node, d: Node)
    requires EngineCore(e, sv, d) && Occupies(sv, h, d)
    ensures forall k: Node :: Occupies(sv, k, d) ==> k == h
  {
  }

  /** A line gets another owner: with no promise that lines stay, the invariant does not notice. */
  lemma MovedLine(s: System, v: View, line: Line, o: Node)
    requires Inv(s, v) && !v.still && line in s.owner && o < Total(s)
    ensures Inv(s.(owner := s.owner[line := o]), v)
  {
  }

  lemma MovesTo(s: System, v: View, m: Message, h: Node, d: Node, data: bool) returns (o: Node)
    requires Inv(s, v) && Answers(v.serving, m, h, d) && d < Total(s) && d < |s.engines|
    ensures var owner := Migrated(s.owner, s.engines[d], d, m, data);
            m.line in s.owner && o < Total(s) && (owner == s.owner || owner == s.owner[m.line := o])
  {
    assert ServiceOk(v.serving[h], h, Total(s));
    o := if s.engines[d].invalidating then d else m.source;
  }

  /** An answer that matches and is not mistaken belongs to the request that occupies the engine. */
  lemma NotMistaken(s: System, v: View, m: Message, h: Node, d: Node)
    requires Inv(s, v) && Answers(v.serving, m, h, d) && d < |s.engines| && !Mistaken(s, m)
    requires s.engines[d].busy && s.engines[d].line == m.line
    ensures Occupies(v.serving, h, d)
  {
    if m.DramAck? {
      hide Inv, NetExact, EngineCore;
      Focus(s, v, d);
      OwnSocket(s, v, m);
    }
  }

  /** The home's own socket has not started on a read exactly while its probe is on its way or parked. */
  lemma OwnSocket(s: System, v: View, m: Message)
    requires m.DramAck? && m.home < |s.engines| && NetExact(s.net, v)
    requires EngineCore(s.engines[m.home], v.serving, m.home)
    requires Serves(v.serving, m.home, m.line, m.source) && m.home < |v.serving[m.home].sockets|
    requires v.serving[m.home].kind.Read?
    ensures var k := v.serving[m.home].sockets[m.home]; OwnProbeOut(s, m) <==> k.Fresh? || k.Queued?
  {
    var p := Probe(m.line, m.source, m.home, m.home, Read, false);
    var q := Probe(m.line, m.source, m.home, m.home, Read, true);
    assert s.net[p] == Expected(v, p) && s.net[q] == Expected(v, q);
    assert multiset(s.engines[m.home].queue)[p] == One(ParkedAt(v.serving, m.home, p));
    hide NetExact, EngineCore;
  }

  /** The answer as the system sees it: the engine's step, and perhaps the line moves. */
  lemma AnswerAt(s: System, v: View, m: Message, h: Node, d: Node, data: bool) returns (v': View)
    requires Inv(s, v) && m in s.net && d < Total(s) && Answers(v.serving, m, h, d)
    requires !Mistaken(s, m) && d < |s.engines|
    requires (v.still && s.migrate ==> Migrated(s.owner, s.engines[d], d, m, data) == s.owner)
    ensures |s.engines| == Total(s)
    ensures !(s.engines[d].busy && s.engines[d].line == m.line) ==> m.DramAck? && m.line !in s.engines[d].early
    ensures Inv(Answered(s, m, d, data), v') && Falls(v, v', Total(s), s.caches)
  {
    hide Inv, Migrated, OnLocalAck;
    EngineCount(s, v);
    if s.engines[d].busy && s.engines[d].line == m.line {
      NotMistaken(s, v, m, h, d);
      v' := MatchedStep(s, v, m, h, d, data);
    } else {
      v' := EarlyStep(s, v, m, h, d, data);
    }
    var o := MovesTo(s, v, m, h, d, data);
    var t := AtEngine(s, m, d, OnLocalAck(s.engines[d], d, m, data));
    var owner := Answered(s, m, d, data).owner;
    if owner == s.owner {
      assert Answered(s, m, d, data) == t;
    } else {
      MovedLine(t, v', m.line, o);
    }
  }

  lemma AnswerStep(s: System, v: View, m: Message, data: bool) returns (v': View)
    requires Inv(s, v) && m in s.net && (m.CacheAck? || m.DramAck?) && Admissible(s, v, m, data)
    ensures AssertsHold(s, m) && Inv(DeliverTo(s, m, data), v') && Falls(v, v', Total(s), s.caches)
  {
    hide Falls, Inv, Migrated, Answered, Answers;
    var d := if m.CacheAck? then m.dest else m.home;
    EngineCount(s, v);
    Sent(s, v, m);
    AnswerInFlight(s, v, m, d);
    v' := AnswerAt(s, v, m, m.home, d, if m.CacheAck? then data else true);
  }

  lemma Sent(s: System, v: View, m: Message)
    requires Inv(s, v) && m in s.net
    ensures Expected(v, m) >= 1
  {
    InFlight(s.net, v, m);
  }

  lemma EngineCount(s: System, v: View)
    requires Inv(s, v)
    ensures |s.requesters| == |s.engines| == |s.homes| >= 1
  {
  }

  lemma AnswerInFlight(s: System, v: View, m: Message, d: Node)
    requires Inv(s, v) && (m.CacheAck? || m.DramAck?) && d == (if m.CacheAck? then m.dest else m.home)
    requires Expected(v, m) >= 1
    ensures d < Total(s) && Answers(v.serving, m, m.home, d)
  {
    assert ServiceOk(v.serving[m.home], m.home, Total(s));
  }
}
