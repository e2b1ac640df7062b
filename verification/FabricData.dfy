/**
 Whose data an acknowledgement reports.  Two histories of the deliveries alone say
 for which probes data of a local cache or of local DRAM has come in, and which
 lines have been written back, since their home took up the request.  In every
 unmistaken run an acknowledgement carries data exactly when data has come in.
 */
module FabricData {
  import opened Requests
  import opened Wrappers
  import opened Fabric
  import opened FabricView
  import opened FabricEngine
  import opened FabricAnswers
  import opened FabricCollect
  import opened FabricHomes
  import opened FabricRuns
  import opened FabricTheorems
  import opened FabricProgress

  /** What socket `socket` has to do for a request. */
  datatype Errand = Errand(line: Line, source: Node, home: Node, socket: Node)

  predicate OnErrand(m: Message) { AboutSocket(m) || m.DramRead? || m.DramAck? }

  function ErrandOf(m: Message): Errand
    requires OnErrand(m)
  {
    Errand(m.line, m.source, m.home, if AboutSocket(m) then SocketOf(m) else m.home)
  }

  /** The delivery brings data of a local cache, or of local DRAM, to a socket. */
  predicate Brings(m: Message, data: bool) { m.DramAck? || (m.CacheAck? && data) }

  /** The errands for which data has come in, and those whose line has been written back. */
  datatype Log = Log(brought: set<Errand>, written: set<Errand>)

  function Elsewhere(es: set<Errand>, home: Node): set<Errand> { set x | x in es && x.home != home }

  function Hear(l: Log, s: System, m: Message, data: bool): Log
  {
    if Opens(s, m) then Log(Elsewhere(l.brought, m.home), Elsewhere(l.written, m.home))
    else if Brings(m, data) then l.(brought := l.brought + {ErrandOf(m)})
    else if m.Evict? then l.(written := l.written + {ErrandOf(m)})
    else l
  }

  predicate HasData(e: Engine) { e.dirty || e.memory }

  predicate Invalidates(s: System, source: Node, line: Line)
  {
    source < |s.requesters| && line in s.requesters[source] && s.requesters[source][line].kind.Invalidate?
  }

  /** The home's own probe for the read that this question or answer of DRAM belongs to has not started. */
  predicate Unstarted(s: System, x: Message)
    requires x.DramRead? || x.DramAck?
  {
    x.home < |s.engines| ==> OwnProbeOut(s, DramAck(x.line, x.source, x.home))
  }

  /** What the histories say about a message in flight or parked. */
  predicate MessageOk(s: System, l: Log, x: Message)
    requires OnErrand(x)
  {
    var t := ErrandOf(x);
    t.socket < |s.engines| &&
    var e := s.engines[t.socket];
    match x
    case Probe(_, _, _, _, _, _) =>
      (t in l.brought <==> t.socket == t.home && x.line in e.early) && t !in l.written
    case CacheProbe(_, _, _, _, kind) => (t in l.brought <==> HasData(e)) && (e.memory ==> kind.Read?) && t !in l.written
    case CacheAck(_, _, _, _, kind) => (t in l.brought <==> HasData(e)) && (e.memory ==> kind.Read?) && t !in l.written
    case DramRead(_, _, _) => (!Unstarted(s, x) ==> (t in l.brought <==> HasData(e))) && t !in l.written
    case DramAck(_, _, _) => (!Unstarted(s, x) ==> (t in l.brought <==> HasData(e))) && t !in l.written
    case Evict(_, _, _, _) => t in l.brought && t !in l.written && Invalidates(s, x.source, x.line)
    case Ack(_, _, _, _, data) =>
      (t in l.brought <==> data) && (t in l.written <==> data && Invalidates(s, x.source, x.line))
  }

  ghost predicate DataExact(s: System, l: Log)
  {
    && (forall x: Message :: OnErrand(x) && Live(s, x) ==> MessageOk(s, l, x))
    && (forall d: Node :: d < |s.engines| && !s.engines[d].busy ==> !HasData(s.engines[d]))
  }

  // ---------------------------------------------------------------- where a message stands

  /** The service that a message belongs to, and how far its socket is. */
  lemma Stands(s: System, v: View, x: Message)
    requires Inv(s, v) && OnErrand(x) && Live(s, x)
    ensures Serves(v.serving, x.home, x.line, x.source) && x.home < Total(s)
    ensures |s.requesters| == |s.engines| == |s.homes| && s.homes[x.home].busy
    ensures var a, d := v.serving[x.home], ErrandOf(x).socket;
            && ServiceOk(a, x.home, Total(s)) && d < |a.sockets| == Total(s)
            && EngineCore(s.engines[d], v.serving, d)
            && (match x
                case Probe(_, _, _, _, kind, again) =>
                  kind == a.kind && (if x in s.net then a.sockets[d] == Fresh(again) else !again && a.sockets[d] == Queued)
                case CacheProbe(_, _, _, _, kind) => kind == a.kind && a.sockets[d].Probing? && x in s.net
                case CacheAck(_, _, _, _, kind) => kind == a.kind && a.sockets[d].Probing? && x in s.net
                case DramRead(_, _, _) => a.dram == Reading && a.kind.Read? && x in s.net
                case DramAck(_, _, _) => a.dram == Replied && a.kind.Read? && x in s.net
                case Evict(_, _, _, _) => a.sockets[d].Evicting? && x in s.net
                case Ack(_, _, _, _, data) => a.sockets[d] == Acked(data) && x in s.net)
  {
    hide Inv, Live;
    LiveServed(s, v, x);
    ServiceHome(s, v, x.home);
    IdleHome(s, v, x.home);
    EngineCount(s, v);
    if x in s.net { Sent(s, v, x); } else { ParkedOnly(s, v, x); }
    Focus(s, v, ErrandOf(x).socket);
  }

  lemma ParkedOnly(s: System, v: View, x: Message)
    requires Inv(s, v) && Live(s, x) && x !in s.net
    ensures x.Probe? && ParkedAt(v.serving, x.dest, x) && x.dest < |s.engines| && x in s.engines[x.dest].queue
  {
    var d: Node :| d < |s.engines| && x in s.engines[d].queue;
    assert EngineCore(s.engines[d], v.serving, d);
    assert multiset(s.engines[d].queue)[x] == One(ParkedAt(v.serving, d, x));
  }

  /** The transaction of a message that is on an errand is known, asleep, and of the kind of its service. */
  lemma Wanted(s: System, v: View, x: Message)
    requires Inv(s, v) && OnErrand(x) && Live(s, x)
    ensures x.home in v.serving && x.source < |s.requesters| && x.line in s.requesters[x.source]
    ensures s.requesters[x.source][x.line].kind == v.serving[x.home].kind && !s.requesters[x.source][x.line].woken
    ensures Invalidates(s, x.source, x.line) <==> v.serving[x.home].kind.Invalidate?
  {
    Stands(s, v, x);
    hide NetExact, Homes, Engines, Owners, Live, EngineCore;
    var k := (x.source, x.line);
    assert !v.serving[x.home].done;
    assert ServicesOk(v, Total(s)) && Transactions(s.requesters, v);
    assert TransactionOk(s.requesters[x.source][x.line], v.pending[k], v, Total(s));
  }

  lemma UnstartedSocket(s: System, v: View, x: Message)
    requires Inv(s, v) && (x.DramRead? || x.DramAck?) && Live(s, x)
    ensures Serves(v.serving, x.home, x.line, x.source) && x.home < |v.serving[x.home].sockets|
    ensures var k := v.serving[x.home].sockets[x.home];
            if Unstarted(s, x) then k.Fresh? || k.Queued? else k.Probing?
  {
    Stands(s, v, x);
    assert NetExact(s.net, v);
    hide Inv, NetExact, EngineCore, Live;
    OwnSocket(s, v, DramAck(x.line, x.source, x.home));
  }

  // ---------------------------------------------------------------- what a delivery changes

  /** The engine at which the delivery is handled. */
  predicate Touches(m: Message, d: Node)
  {
    (m.Probe? || m.CacheAck? || m.DramAck? || m.Evict?) && ErrandOf(m).socket == d
  }

  function EngineNext(s: System, m: Message, data: bool, d: Node): Engine
    requires d < |s.engines|
  {
    var e := s.engines[d];
    if !Touches(m, d) then e
    else if m.Probe? then OnProbe(e, s.caches, m).state
    else if m.Evict? then OnEvicted(e, d, m).state
    else OnLocalAck(e, d, m, m.DramAck? || data).state
  }

  lemma EngineAfter(s: System, m: Message, data: bool, d: Node)
    requires AssertsHold(s, m) && d < |s.engines|
    ensures |DeliverTo(s, m, data).engines| == |s.engines|
    ensures DeliverTo(s, m, data).engines[d] == EngineNext(s, m, data, d)
  {
    hide OnReq, OnUnblock, OnProbe, OnLocalAck, OnEvicted, OnAck, Migrated, Record;
  }

  lemma RequestersAfter(s: System, m: Message, data: bool)
    requires AssertsHold(s, m)
    ensures DeliverTo(s, m, data).requesters ==
            match m
            case Ack(_, source, _, _, _) => s.requesters[source := OnAck(s.requesters[source], Total(s), m).state]
            case Store(line, source, _) =>
              s.requesters[source := Record(s.requesters[source], line, s.requesters[source][line].(woken := true))]
            case _ => s.requesters
  {
    hide OnReq, OnUnblock, OnProbe, OnLocalAck, OnEvicted, OnAck, Migrated, Record;
  }

  /** An acknowledgement changes the kind of no transaction. */
  lemma AckKinds(w: Requester, total: nat, m: Message, line: Line)
    requires m.Ack? && m.line in w && line in w
    ensures var w' := OnAck(w, total, m).state; line in w' && w'[line].kind == w[line].kind
  {
  }

  lemma SameKind(s: System, m: Message, data: bool, source: Node, line: Line)
    requires AssertsHold(s, m) && source < |s.requesters| && line in s.requesters[source]
    ensures Invalidates(DeliverTo(s, m, data), source, line) <==> Invalidates(s, source, line)
  {
    hide DeliverTo, OnAck;
    RequestersAfter(s, m, data);
    if m.Ack? && m.source == source { AckKinds(s.requesters[source], Total(s), m, line); }
  }

  /** What a delivery adds to the histories of the errand of a live message. */
  lemma LogAfter(s: System, v: View, l: Log, m: Message, data: bool, x: Message)
    requires Inv(s, v) && OnErrand(x) && Live(s, x)
    ensures var t, l' := ErrandOf(x), Hear(l, s, m, data);
            && (t in l'.brought <==> t in l.brought || (Brings(m, data) && ErrandOf(m) == t))
            && (t in l'.written <==> t in l.written || (m.Evict? && ErrandOf(m) == t))
  {
    Stands(s, v, x);
    hide Inv, Live, EngineCore;
  }

  // ---------------------------------------------------------------- messages that stay

  /** x is in flight besides m, or parked. */
  ghost predicate Stays(s: System, m: Message, x: Message)
  {
    Live(s, x) && (x in s.net ==> x in s.net - multiset{m})
  }

  /** A message that the running probe of its socket still waits for. */
  ghost predicate Works(s: System, x: Message)
  {
    x in s.net && (x.CacheProbe? || x.CacheAck? || ((x.DramRead? || x.DramAck?) && !Unstarted(s, x)))
  }

  lemma WorkerSocket(s: System, v: View, x: Message)
    requires Inv(s, v) && Works(s, x)
    ensures Live(s, x) && ErrandOf(x).socket < |s.engines| == Total(s) && Serves(v.serving, x.home, x.line, x.source)
    ensures var a, d := v.serving[x.home], ErrandOf(x).socket;
            && d < |a.sockets| && a.sockets[d].Probing? && Occupies(v.serving, x.home, d)
            && EngineCore(s.engines[d], v.serving, d) && ServiceOk(a, x.home, |a.sockets|)
            && s.engines[d].busy && s.engines[d].line == x.line && s.engines[d].owed == Owed(a, x.home, d)
            && s.engines[d].invalidating == a.kind.Invalidate?
            && forall k: Node :: Occupies(v.serving, k, d) ==> k == x.home
  {
    Stands(s, v, x);
    if x.DramRead? || x.DramAck? { UnstartedSocket(s, v, x); }
    hide Inv, Live, Unstarted, ParkedExact, EarlyExact;
  }

  /** Two different messages, or two copies, that one socket waits for. */
  lemma TwoOwed(s: System, v: View, m: Message, x: Message)
    requires Inv(s, v) && Works(s, x) && Works(s, m) && ErrandOf(x) == ErrandOf(m) && x in s.net - multiset{m}
    ensures s.engines[ErrandOf(x).socket].owed >= 2
  {
    WorkerSocket(s, v, x);
    Stands(s, v, x);
    Stands(s, v, m);
    assert s.net[x] == Expected(v, x) && s.net[m] == Expected(v, m);
    hide Inv, Live, EngineCore, ServiceOk;
    if m == x { assert (s.net - multiset{m})[x] == s.net[x] - 1; }
  }

  lemma AnswerPlace(s: System, v: View, m: Message)
    requires Inv(s, v) && m in s.net && (m.CacheAck? || m.DramAck?)
    ensures ErrandOf(m).socket < Total(s) == |s.engines| && Answers(v.serving, m, m.home, ErrandOf(m).socket)
  {
    EngineCount(s, v);
    Sent(s, v, m);
    AnswerInFlight(s, v, m, ErrandOf(m).socket);
  }

  /** An answer that is counted is one its engine's occupant waits for. */
  lemma CountedWorks(s: System, v: View, m: Message)
    requires Inv(s, v) && m in s.net && (m.CacheAck? || m.DramAck?) && !Mistaken(s, m)
    ensures ErrandOf(m).socket < |s.engines| && m.home in v.serving
    ensures var d := ErrandOf(m).socket; var e := s.engines[d];
            if e.busy && e.line == m.line then Works(s, m)
            else m.DramAck? && Unstarted(s, m) && m.line !in e.early && !Occupies(v.serving, m.home, d)
  {
    var d := ErrandOf(m).socket;
    AnswerPlace(s, v, m);
    Focus(s, v, d);
    hide Inv, Rest, NetExact, EngineCore, EngineLive, Mistaken, Answers, Live;
    var e := s.engines[d];
    if e.busy && e.line == m.line {
      NotMistaken(s, v, m, m.home, d);
    } else {
      Unmatched(e, v.serving, m, m.home, d);
    }
    if m.DramAck? {
      InLive(s, m);
      UnstartedSocket(s, v, m);
    }
  }

  lemma InLive(s: System, m: Message)
    requires m in s.net && OnErrand(m)
    ensures Live(s, m)
  {
  }

  /** A message that stays finds at its engine what it found before, and what a delivery on its errand added. */
  lemma WorkerKept(s: System, v: View, m: Message, data: bool, x: Message)
    requires Inv(s, v) && m in s.net && AssertsHold(s, m) && !Mistaken(s, m)
    requires Works(s, x) && x in s.net - multiset{m}
    ensures ErrandOf(x).socket < |s.engines|
    ensures var d := ErrandOf(x).socket; var e, e' := s.engines[d], EngineNext(s, m, data, d);
            && (HasData(e') <==> HasData(e) || (Brings(m, data) && ErrandOf(m) == ErrandOf(x)))
            && (e'.memory ==> e.memory || (m.DramAck? && ErrandOf(m) == ErrandOf(x)))
  {
    var d := ErrandOf(x).socket;
    hide Inv, Works, Mistaken, Live, EngineCore, AssertsHold;
    WorkerSocket(s, v, x);
    if Touches(m, d) {
      if m.Evict? {
        WorkerNoEvict(s, v, m, x);
        assert false;
      } else if !m.Probe? {
        CountedWorks(s, v, m);
        if Works(s, m) {
          WorkerSocket(s, v, m);
          TwoOwed(s, v, m, x);
        }
      }
    }
  }

  /** A socket that waits for answers is not being written back. */
  lemma WorkerNoEvict(s: System, v: View, m: Message, x: Message)
    requires Inv(s, v) && m in s.net && m.Evict? && Works(s, x)
    ensures m.dest != ErrandOf(x).socket
  {
    WorkerSocket(s, v, x);
    InLive(s, m);
    Stands(s, v, m);
    hide Inv, Works, Live, EngineCore;
  }

  /** A probe starts at its engine: it finds there exactly what the histories say has come in. */
  lemma Started(s: System, v: View, l: Log, m: Message, data: bool)
    requires Inv(s, v) && DataExact(s, l) && m in s.net && AssertsHold(s, m)
    requires m.Probe? && m.dest < |s.engines| && !s.engines[m.dest].busy
    ensures var e' := EngineNext(s, m, data, m.dest);
            && (ErrandOf(m) in l.brought <==> HasData(e')) && ErrandOf(m) !in l.written
            && (e'.memory ==> m.kind.Read?)
  {
    InLive(s, m);
    assert MessageOk(s, l, m);
    hide Inv, Live, Invalidates, Unstarted;
  }

  /** A read's own probe that has not started before a delivery has not started after it, or is just starting. */
  lemma StillUnstarted(s: System, v: View, m: Message, data: bool, x: Message)
    requires Inv(s, v) && m in s.net && AssertsHold(s, m) && x in s.net && (x.DramRead? || x.DramAck?)
    requires Unstarted(s, x)
    ensures x.home < |s.engines|
    ensures Unstarted(DeliverTo(s, m, data), x)
            || (m.Probe? && ErrandOf(m) == ErrandOf(x) && m.kind.Read? && !s.engines[x.home].busy)
  {
    hide DeliverTo, Inv, Live, EngineCore, ServiceOk, AssertsHold;
    InLive(s, x);
    Stands(s, v, x);
    EngineAfter(s, m, data, x.home);
    NetAfter(s, m, data);
    UnstartedAfter(s, DeliverTo(s, m, data), m, data, x);
  }

  lemma UnstartedAfter(s: System, s': System, m: Message, data: bool, x: Message)
    requires AssertsHold(s, m) && (x.DramRead? || x.DramAck?) && Unstarted(s, x)
    requires x.home < |s.engines| == |s'.engines| && s'.engines[x.home] == EngineNext(s, m, data, x.home)
    requires s'.net == s.net - multiset{m} + SentFor(s, m, data)
    ensures Unstarted(s', x) || (m.Probe? && ErrandOf(m) == ErrandOf(x) && m.kind.Read? && !s.engines[x.home].busy)
  {
    hide AssertsHold, EngineNext, SentFor;
    var h, p := x.home, Probe(x.line, x.source, x.home, x.home, Read, false);
    if p in s.engines[h].queue {
      QueueKept(s, m, data, h, p);
    } else {
      var q := if p in s.net then p else Label(p, true);
      assert q in s.net;
      if m == q {
        if s.engines[h].busy { QueueGains(s, m, data, h); }
      } else {
        assert q in s'.net;
      }
    }
  }

  lemma ReleaseKeeps(e: Engine, p: Message)
    requires p in e.queue
    ensures p in ReleaseEngine(e).state.queue || Label(p, true) in ReleaseEngine(e).sent
  {
    assert p == e.queue[0] || p in e.queue[1..];
    hide Label;
  }

  lemma AnswerKeeps(e: Engine, d: Node, m: Message, data: bool, p: Message)
    requires p in e.queue && (m.CacheAck? || m.DramAck?)
    ensures p in OnLocalAck(e, d, m, data).state.queue || Label(p, true) in OnLocalAck(e, d, m, data).sent
  {
    ReleaseKeeps(Noted(e, m, data), p);
    hide ReleaseEngine, Label;
  }

  lemma EvictKeeps(e: Engine, d: Node, m: Message, p: Message)
    requires p in e.queue && m.Evict?
    ensures p in OnEvicted(e, d, m).state.queue || Label(p, true) in OnEvicted(e, d, m).sent
  {
    ReleaseKeeps(e, p);
    hide ReleaseEngine, Label;
  }

  /** A parked probe stays parked, or is sent on its way again. */
  lemma QueueKept(s: System, m: Message, data: bool, d: Node, p: Message)
    requires AssertsHold(s, m) && d < |s.engines| && p in s.engines[d].queue
    ensures p in EngineNext(s, m, data, d).queue || Label(p, true) in SentFor(s, m, data)
  {
    hide OnReq, OnUnblock, OnAck, OnLocalAck, OnEvicted, Label;
    var e := s.engines[d];
    if m.CacheAck? || m.DramAck? { AnswerKeeps(e, d, m, m.DramAck? || data, p); }
    if m.Evict? { EvictKeeps(e, d, m, p); }
  }

  lemma QueueGains(s: System, m: Message, data: bool, d: Node)
    requires d < |s.engines| && m.Probe? && m.dest == d && s.engines[d].busy
    ensures Label(m, false) in EngineNext(s, m, data, d).queue
  {
  }

  /** An answer or a question that stays keeps its account. */
  lemma WorkerOk(s: System, v: View, l: Log, m: Message, data: bool, x: Message)
    requires Inv(s, v) && DataExact(s, l) && m in s.net && AssertsHold(s, m) && !Mistaken(s, m)
    requires x in s.net - multiset{m} && (x.CacheProbe? || x.CacheAck? || x.DramRead? || x.DramAck?)
    ensures MessageOk(DeliverTo(s, m, data), Hear(l, s, m, data), x)
  {
    hide Inv, DeliverTo, Hear, EngineNext, Live, AssertsHold, Mistaken, HasData;
    InLive(s, x);
    assert MessageOk(s, l, x);
    EngineSize(s, m, data);
    EngineAfter(s, m, data, ErrandOf(x).socket);
    LogAfter(s, v, l, m, data, x);
    NotWritten(s, v, m, x);
    if Works(s, x) {
      WorkerKept(s, v, m, data, x);
      hide Unstarted, DataExact;
      if m.DramAck? && ErrandOf(m) == ErrandOf(x) { SameErrandReads(s, v, m, x); }
    } else {
      StillUnstarted(s, v, m, data, x);
      if !Unstarted(DeliverTo(s, m, data), x) { Started(s, v, l, m, data); }
      hide Unstarted, DataExact;
    }
  }

  /** DRAM answers reads only, so what a local cache is asked on the same errand is for a read. */
  lemma SameErrandReads(s: System, v: View, m: Message, x: Message)
    requires Inv(s, v) && m in s.net && m.DramAck? && (x.CacheProbe? || x.CacheAck? || x.DramRead? || x.DramAck?)
    requires x in s.net && ErrandOf(m) == ErrandOf(x)
    ensures x.CacheProbe? || x.CacheAck? ==> x.kind.Read?
  {
    hide Inv, Live, EngineCore, ServiceOk;
    InLive(s, m);
    InLive(s, x);
    Stands(s, v, m);
    Stands(s, v, x);
  }

  /** No line is written back while its socket is still asked or still asks. */
  lemma NotWritten(s: System, v: View, m: Message, x: Message)
    requires Inv(s, v) && m in s.net && x in s.net && OnErrand(x) && !x.Evict?
    ensures m.Evict? ==> ErrandOf(m) != ErrandOf(x)
  {
    if m.Evict? && ErrandOf(m) == ErrandOf(x) {
      InLive(s, m);
      InLive(s, x);
      Stands(s, v, m);
      Stands(s, v, x);
      assert false;
    }
  }

  /** A write-back or an acknowledgement that stays keeps its account. */
  lemma ReportOk(s: System, v: View, l: Log, m: Message, data: bool, x: Message)
    requires Inv(s, v) && DataExact(s, l) && m in s.net && AssertsHold(s, m)
    requires x in s.net - multiset{m} && (x.Evict? || x.Ack?)
    ensures MessageOk(DeliverTo(s, m, data), Hear(l, s, m, data), x)
  {
    InLive(s, x);
    Stands(s, v, x);
    Wanted(s, v, x);
    assert MessageOk(s, l, x);
    EngineAfter(s, m, data, ErrandOf(x).socket);
    SameKind(s, m, data, x.source, x.line);
    LogAfter(s, v, l, m, data, x);
    OtherErrand(s, v, m, x);
    hide Inv, DataExact, DeliverTo, Hear, EngineNext, EngineCore, ServiceOk, Live, AssertsHold, Invalidates;
  }

  /** No answer comes in, and nothing is written back, on an errand that has ended or is being written back. */
  lemma OtherErrand(s: System, v: View, m: Message, x: Message)
    requires Inv(s, v) && m in s.net && x in s.net - multiset{m} && (x.Evict? || x.Ack?)
    ensures m.CacheAck? || m.DramAck? || m.Evict? ==> ErrandOf(m) != ErrandOf(x)
  {
    assert s.net[x] == Expected(v, x);
    if (m.CacheAck? || m.DramAck? || m.Evict?) && ErrandOf(m) == ErrandOf(x) {
      InLive(s, m);
      InLive(s, x);
      Stands(s, v, m);
      Stands(s, v, x);
      assert false;
    }
  }

  /** A probe that does not start now keeps its account. */
  lemma ProbeOk(s: System, v: View, l: Log, m: Message, data: bool, x: Message)
    requires Inv(s, v) && DataExact(s, l) && m in s.net && AssertsHold(s, m) && !Mistaken(s, m)
    requires x.Probe? && Live(s, x)
    requires m.Probe? && ErrandOf(m) == ErrandOf(x) ==> m.dest < |s.engines| && s.engines[m.dest].busy
    ensures MessageOk(DeliverTo(s, m, data), Hear(l, s, m, data), x)
  {
    Stands(s, v, x);
    assert MessageOk(s, l, x);
    EngineAfter(s, m, data, x.dest);
    LogAfter(s, v, l, m, data, x);
    EarlyKept(s, v, m, data, x);
    NotWrittenYet(s, v, m, x);
    hide Inv, DataExact, DeliverTo, Hear, EngineNext, EngineCore, ServiceOk, Live, AssertsHold, Mistaken;
  }

  lemma NotWrittenYet(s: System, v: View, m: Message, x: Message)
    requires Inv(s, v) && m in s.net && Live(s, x) && x.Probe?
    ensures m.Evict? || m.CacheAck? ==> ErrandOf(m) != ErrandOf(x)
  {
    if (m.Evict? || m.CacheAck?) && ErrandOf(m) == ErrandOf(x) {
      InLive(s, m);
      Stands(s, v, m);
      Stands(s, v, x);
      assert false;
    }
  }

  /** Early data goes when a probe starts for its line, and comes with an answer that is not counted. */
  lemma EarlyNext(s: System, m: Message, data: bool, d: Node, line: Line)
    requires d < |s.engines|
    ensures var e := s.engines[d];
            line in EngineNext(s, m, data, d).early <==>
            if !Touches(m, d) || m.line != line || m.Evict? then line in e.early
            else if m.Probe? then line in e.early && e.busy
            else line in e.early || !e.busy || e.line != line
  {
  }

  /** An answer to the request of a probe that is out is DRAM's, and comes early. */
  lemma ComesEarly(s: System, v: View, m: Message, x: Message)
    requires Inv(s, v) && m in s.net && !Mistaken(s, m) && (m.CacheAck? || m.DramAck?)
    requires x.Probe? && Live(s, x) && x.dest == x.home == ErrandOf(m).socket && m.line == x.line
    ensures x.home < |s.engines|
    ensures !s.engines[x.home].busy || s.engines[x.home].line != x.line ==> m.DramAck? && ErrandOf(m) == ErrandOf(x)
    ensures s.engines[x.home].busy && s.engines[x.home].line == x.line ==> ErrandOf(m) != ErrandOf(x)
  {
    Stands(s, v, x);
    CountedWorks(s, v, m);
    InLive(s, m);
    Stands(s, v, m);
    if Works(s, m) { WorkerSocket(s, v, m); }
    hide Inv, Live, EngineCore, ServiceOk, Mistaken, Works;
  }

  /** Early data for the line of a home's own probe comes from DRAM's answer to its request, and waits for the probe. */
  lemma EarlyKept(s: System, v: View, m: Message, data: bool, x: Message)
    requires Inv(s, v) && m in s.net && AssertsHold(s, m) && !Mistaken(s, m)
    requires x.Probe? && Live(s, x) && x.dest < |s.engines|
    requires m.Probe? && ErrandOf(m) == ErrandOf(x) ==> m.dest < |s.engines| && s.engines[m.dest].busy
    ensures x.dest == x.home ==>
              (x.line in EngineNext(s, m, data, x.dest).early <==>
               x.line in s.engines[x.dest].early || (m.DramAck? && ErrandOf(m) == ErrandOf(x)))
  {
    if x.dest == x.home {
      EarlyNext(s, m, data, x.dest, x.line);
      if m.CacheAck? || m.DramAck? {
        if ErrandOf(m).socket == x.home && m.line == x.line { ComesEarly(s, v, m, x); }
      } else if m.Probe? && m.dest == x.dest && m.line == x.line && !s.engines[x.dest].busy {
        Stands(s, v, x);
        InLive(s, m);
        Stands(s, v, m);
      }
      hide Inv, Live, EngineCore, ServiceOk, Mistaken, EngineNext;
    }
  }

  // ---------------------------------------------------------------- messages that a delivery sends

  lemma InQueue(s: System, v: View, d: Node, x: Message)
    requires Inv(s, v) && d < |s.engines| && x in s.engines[d].queue
    ensures x.Probe? && x.dest == d && ParkedAt(v.serving, d, x) && Live(s, x)
  {
    assert EngineCore(s.engines[d], v.serving, d);
    assert multiset(s.engines[d].queue)[x] == One(ParkedAt(v.serving, d, x));
  }

  /** The probes and the question to DRAM of a request that is taken up. */
  lemma OpenedOk(s: System, v: View, l: Log, m: Message, data: bool, x: Message)
    requires Inv(s, v) && m in s.net && AssertsHold(s, m) && m.Req?
    requires OnErrand(x) && x in SentFor(s, m, data)
    ensures MessageOk(DeliverTo(s, m, data), Hear(l, s, m, data), x)
  {
    hide Inv, DeliverTo, SentFor, EngineNext;
    OpenedWhat(s, m, data, x);
    EngineCount(s, v);
    var d := ErrandOf(x).socket;
    EngineAfter(s, m, data, d);
    NotTouched(s, m, data, d);
    NoEarly(s, v, m.home, m.line);
    if x.DramRead? { NetAfter(s, m, data); }
    hide Fan, AssertsHold;
  }

  lemma OpenedWhat(s: System, m: Message, data: bool, x: Message)
    requires AssertsHold(s, m) && m.Req? && OnErrand(x) && x in SentFor(s, m, data)
    ensures Opens(s, m) && x.home == m.home && x.line == m.line && ErrandOf(x).socket < Total(s) && (x.Probe? || x.DramRead?)
    ensures x.DramRead? ==>
              x.source == m.source && Probe(m.line, m.source, m.home, m.home, Read, false) in SentFor(s, m, data)
  {
    FanCount(m, Total(s), x);
    FanCount(m, Total(s), Probe(m.line, m.source, m.home, m.home, Read, false));
    hide Fan;
  }

  lemma NotTouched(s: System, m: Message, data: bool, d: Node)
    requires d < |s.engines| && !(m.Probe? || m.CacheAck? || m.DramAck? || m.Evict?)
    ensures EngineNext(s, m, data, d) == s.engines[d]
  {
  }

  /** No early data waits at an idle home. */
  lemma NoEarly(s: System, v: View, h: Node, line: Line)
    requires Inv(s, v) && h < Total(s)
    ensures h < |s.homes| && h < |s.engines| && (!s.homes[h].busy ==> line !in s.engines[h].early)
  {
    IdleHome(s, v, h);
    EngineCount(s, v);
    Focus(s, v, h);
    hide Inv, Rest, ServiceOk, NetExact, ParkedExact, BusyExact, EngineLive;
  }

  /** The questions to the local caches. */
  lemma AskedOk(s: System, v: View, l: Log, m: Message, data: bool, x: Message)
    requires Inv(s, v) && DataExact(s, l) && m in s.net && AssertsHold(s, m) && m.Probe?
    requires x in SentFor(s, m, data)
    ensures OnErrand(x) && MessageOk(DeliverTo(s, m, data), Hear(l, s, m, data), x)
  {
    EngineAfter(s, m, data, m.dest);
    Started(s, v, l, m, data);
    hide Inv, DataExact, DeliverTo, EngineNext, HasData;
  }

  /** The answers of local DRAM and of the local caches. */
  lemma ReplyOk(s: System, v: View, l: Log, m: Message, data: bool, x: Message)
    requires Inv(s, v) && DataExact(s, l) && m in s.net && AssertsHold(s, m) && (m.DramRead? || m.CacheProbe?)
    requires x in SentFor(s, m, data)
    ensures OnErrand(x) && MessageOk(DeliverTo(s, m, data), Hear(l, s, m, data), x)
  {
    hide Inv, DeliverTo, HasData, EngineCore, ServiceOk, Live, EngineNext, AssertsHold;
    InLive(s, m);
    assert MessageOk(s, l, m);
    Stands(s, v, m);
    var d := ErrandOf(m).socket;
    EngineAfter(s, m, data, d);
    NotTouched(s, m, data, d);
    if m.DramRead? && Unstarted(s, m) { StillUnstarted(s, v, m, data, m); }
    hide OwnProbeOut, DataExact;
  }

  /** The first parked probe, sent on its way again. */
  lemma ResentOk(s: System, v: View, l: Log, m: Message, data: bool, d: Node, p: Message)
    requires Inv(s, v) && DataExact(s, l) && m in s.net && AssertsHold(s, m) && !Mistaken(s, m) && !m.Probe?
    requires d < |s.engines| && s.engines[d].queue != [] && s.engines[d].queue[0] == p
    ensures p.Probe? && MessageOk(DeliverTo(s, m, data), Hear(l, s, m, data), Label(p, true))
  {
    InQueue(s, v, d, p);
    ProbeOk(s, v, l, m, data, p);
    hide Inv, DataExact, DeliverTo, Hear, Live, AssertsHold, Mistaken;
  }

  /** The last answer, counted: the engine's flags say what the histories say after it. */
  lemma LastCounted(s: System, v: View, l: Log, m: Message, data: bool)
    requires Inv(s, v) && DataExact(s, l) && m in s.net && AssertsHold(s, m) && !Mistaken(s, m)
    requires (m.CacheAck? || m.DramAck?) && ErrandOf(m).socket < |s.engines|
    requires var e := s.engines[ErrandOf(m).socket]; e.busy && e.line == m.line
    ensures var d, l' := ErrandOf(m).socket, Hear(l, s, m, data);
            var e := s.engines[d]; var e' := Noted(e, m, m.DramAck? || data);
            && (ErrandOf(m) in l'.brought <==> HasData(e')) && ErrandOf(m) !in l'.written
            && (e.invalidating <==> Invalidates(s, m.source, m.line))
            && (e.invalidating ==> !e'.memory)
  {
    CountedWorks(s, v, m);
    WorkerSocket(s, v, m);
    Wanted(s, v, m);
    Stands(s, v, m);
    LogAfter(s, v, l, m, data, m);
    assert MessageOk(s, l, m);
    hide Inv, DataExact, Hear, Live, AssertsHold, Mistaken, Works, EngineCore, ServiceOk, Invalidates;
    if m.DramAck? { WorksStarted(s, m); }
  }

  lemma WorksStarted(s: System, m: Message)
    requires Works(s, m) && m.DramAck?
    ensures !Unstarted(s, m)
  {
  }

  /** What the last answer sends: the write-back, or the acknowledgement and a parked probe. */
  lemma AnswerSent(s: System, m: Message, data: bool, d: Node, x: Message)
    requires AssertsHold(s, m) && (m.CacheAck? || m.DramAck?) && d == ErrandOf(m).socket && d < |s.engines|
    requires x in SentFor(s, m, data)
    ensures var e := s.engines[d]; var e' := Noted(e, m, m.DramAck? || data);
            && e.busy && e.line == m.line
            && (|| (x == Evict(m.line, m.source, m.home, d) && e.invalidating && e'.dirty)
                || (x == Ack(m.line, m.source, m.home, d, HasData(e')) && !(e.invalidating && e'.dirty))
                || (e.queue != [] && x == Label(e.queue[0], true)))
  {
  }

  lemma AnswerOk(s: System, v: View, l: Log, m: Message, data: bool, x: Message)
    requires Inv(s, v) && DataExact(s, l) && m in s.net && AssertsHold(s, m) && !Mistaken(s, m)
    requires (m.CacheAck? || m.DramAck?) && x in SentFor(s, m, data) && OnErrand(x)
    ensures MessageOk(DeliverTo(s, m, data), Hear(l, s, m, data), x)
  {
    hide Inv, DataExact, Hear, DeliverTo, Live, AssertsHold, Mistaken, Works, Invalidates, SentFor, EngineNext, MessageOk;
    var d := ErrandOf(m).socket;
    CountedWorks(s, v, m);
    AnswerSent(s, m, data, d, x);
    if s.engines[d].queue != [] && x == Label(s.engines[d].queue[0], true) {
      ResentOk(s, v, l, m, data, d, s.engines[d].queue[0]);
    } else {
      LastCounted(s, v, l, m, data);
      InLive(s, m);
      ReportNew(s, v, l, m, data, x);
    }
  }

  /** A report with the truth about its errand, sent by the engine that was at work on it. */
  lemma ReportNew(s: System, v: View, l: Log, m: Message, data: bool, x: Message)
    requires Inv(s, v) && AssertsHold(s, m) && OnErrand(m) && Live(s, m) && (x.Ack? || x.Evict?)
    requires ErrandOf(x) == ErrandOf(m)
    requires var t, l' := ErrandOf(x), Hear(l, s, m, data); var inval := Invalidates(s, m.source, m.line);
             if x.Ack? then (t in l'.brought <==> x.data) && (t in l'.written <==> x.data && inval)
             else t in l'.brought && t !in l'.written && inval
    ensures MessageOk(DeliverTo(s, m, data), Hear(l, s, m, data), x)
  {
    hide Inv, Hear, DeliverTo, Live, AssertsHold, Invalidates, EngineCore, ServiceOk;
    Stands(s, v, m);
    Wanted(s, v, m);
    SameKind(s, m, data, m.source, m.line);
    EngineSize(s, m, data);
  }

  lemma WrittenOk(s: System, v: View, l: Log, m: Message, data: bool, x: Message)
    requires Inv(s, v) && DataExact(s, l) && m in s.net && AssertsHold(s, m) && !Mistaken(s, m)
    requires m.Evict? && x in SentFor(s, m, data) && OnErrand(x)
    ensures MessageOk(DeliverTo(s, m, data), Hear(l, s, m, data), x)
  {
    hide Inv, DataExact, Hear, DeliverTo, Mistaken, Invalidates, EngineNext, MessageOk;
    var d := m.dest;
    EvictSent(s, m, data, x);
    if s.engines[d].queue != [] && x == Label(s.engines[d].queue[0], true) {
      ResentOk(s, v, l, m, data, d, s.engines[d].queue[0]);
    } else {
      EvictLogged(s, v, l, m, data);
      InLive(s, m);
      ReportNew(s, v, l, m, data, x);
    }
  }

  lemma EvictSent(s: System, m: Message, data: bool, x: Message)
    requires AssertsHold(s, m) && m.Evict? && x in SentFor(s, m, data)
    ensures m.dest < |s.engines|
    ensures x == Ack(m.line, m.source, m.home, m.dest, true)
            || (s.engines[m.dest].queue != [] && x == Label(s.engines[m.dest].queue[0], true))
  {
  }

  lemma EvictLogged(s: System, v: View, l: Log, m: Message, data: bool)
    requires Inv(s, v) && DataExact(s, l) && m in s.net && m.Evict?
    ensures var t, l' := ErrandOf(m), Hear(l, s, m, data);
            t in l'.brought && t in l'.written && Invalidates(s, m.source, m.line)
  {
    hide Inv, Hear;
    InLive(s, m);
    LogAfter(s, v, l, m, data, m);
    assert MessageOk(s, l, m);
  }

  lemma SentOk(s: System, v: View, l: Log, m: Message, data: bool, x: Message)
    requires Inv(s, v) && DataExact(s, l) && m in s.net && AssertsHold(s, m) && !Mistaken(s, m)
    requires x in SentFor(s, m, data) && OnErrand(x)
    ensures MessageOk(DeliverTo(s, m, data), Hear(l, s, m, data), x)
  {
    match m
    case Req(_, _, _, _, _) => OpenedOk(s, v, l, m, data, x);
    case Probe(_, _, _, _, _, _) => AskedOk(s, v, l, m, data, x);
    case DramRead(_, _, _) => ReplyOk(s, v, l, m, data, x);
    case CacheProbe(_, _, _, _, _) => ReplyOk(s, v, l, m, data, x);
    case DramAck(_, _, _) => AnswerOk(s, v, l, m, data, x);
    case CacheAck(_, _, _, _, _) => AnswerOk(s, v, l, m, data, x);
    case Evict(_, _, _, _) => WrittenOk(s, v, l, m, data, x);
    case Unblock(_, _, home) => if s.homes[home].queue != [] { HeadIsOwn(s, v, home); }
    case Ack(_, _, _, _, _) => SentByAck(s, m, data, x);
    case Store(_, _, _) =>
    hide Inv, DataExact, Hear, DeliverTo, MessageOk, Mistaken;
  }

  lemma SentByAck(s: System, m: Message, data: bool, x: Message)
    requires AssertsHold(s, m) && m.Ack? && x in SentFor(s, m, data)
    ensures !OnErrand(x)
  {
  }

  // ---------------------------------------------------------------- every run

  /** What an engine's queue holds after a delivery was there before, or is the probe that has just been parked. */
  lemma QueueAfterDelivery(s: System, m: Message, data: bool, d: Node, x: Message)
    requires AssertsHold(s, m) && d < |s.engines| && x in EngineNext(s, m, data, d).queue
    ensures x in s.engines[d].queue || (m.Probe? && m.dest == d && s.engines[d].busy && x == Label(m, false))
  {
  }

  /** A delivered probe that starts is nowhere any more. */
  lemma StartsAlone(s: System, v: View, m: Message, x: Message)
    requires Inv(s, v) && m in s.net && m.Probe? && Live(s, x) && x.Probe? && ErrandOf(m) == ErrandOf(x)
    ensures (x in s.net ==> x == m && x !in s.net - multiset{m}) && (x !in s.net ==> x.dest < |s.engines|)
    ensures forall d: Node :: d < |s.engines| ==> x !in s.engines[d].queue
  {
    InLive(s, m);
    Stands(s, v, m);
    Stands(s, v, x);
    assert s.net[m] == Expected(v, m);
    forall d: Node | d < |s.engines| ensures x !in s.engines[d].queue {
      if x in s.engines[d].queue { InQueue(s, v, d, x); assert false; }
    }
  }

  lemma MessageStep(s: System, v: View, l: Log, m: Message, data: bool, x: Message)
    requires Inv(s, v) && DataExact(s, l) && m in s.net && AssertsHold(s, m) && !Mistaken(s, m)
    requires OnErrand(x) && Live(DeliverTo(s, m, data), x)
    ensures MessageOk(DeliverTo(s, m, data), Hear(l, s, m, data), x)
  {
    hide Inv, DataExact, Hear, AssertsHold, Mistaken, MessageOk, DeliverTo, SentFor, EngineNext;
    NetAfter(s, m, data);
    var s' := DeliverTo(s, m, data);
    if x in s'.net {
      if x in SentFor(s, m, data) {
        SentOk(s, v, l, m, data, x);
      } else {
        StaysOk(s, v, l, m, data, x);
      }
    } else {
      var d: Node :| d < |s'.engines| && x in s'.engines[d].queue;
      EngineSize(s, m, data);
      EngineAfter(s, m, data, d);
      ParkedOk(s, v, l, m, data, d, x);
    }
  }

  lemma EngineSize(s: System, m: Message, data: bool)
    requires AssertsHold(s, m)
    ensures |DeliverTo(s, m, data).engines| == |s.engines|
  {
    hide OnReq, OnUnblock, OnProbe, OnLocalAck, OnEvicted, OnAck, Migrated, Record;
  }

  lemma StaysOk(s: System, v: View, l: Log, m: Message, data: bool, x: Message)
    requires Inv(s, v) && DataExact(s, l) && m in s.net && AssertsHold(s, m) && !Mistaken(s, m)
    requires OnErrand(x) && x in s.net - multiset{m}
    ensures MessageOk(DeliverTo(s, m, data), Hear(l, s, m, data), x)
  {
    hide Inv, DataExact, Hear, AssertsHold, Mistaken, MessageOk, DeliverTo;
    InLive(s, x);
    hide Live;
    if x.Evict? || x.Ack? { ReportOk(s, v, l, m, data, x); }
    else if !x.Probe? { WorkerOk(s, v, l, m, data, x); }
    else {
      if m.Probe? && ErrandOf(m) == ErrandOf(x) { StartsAlone(s, v, m, x); }
      ProbeOk(s, v, l, m, data, x);
    }
  }

  lemma ParkedOk(s: System, v: View, l: Log, m: Message, data: bool, d: Node, x: Message)
    requires Inv(s, v) && DataExact(s, l) && m in s.net && AssertsHold(s, m) && !Mistaken(s, m)
    requires d < |s.engines| && x in EngineNext(s, m, data, d).queue
    ensures OnErrand(x) && MessageOk(DeliverTo(s, m, data), Hear(l, s, m, data), x)
  {
    hide Inv, DataExact, Hear, AssertsHold, Mistaken, DeliverTo, EngineNext;
    QueueAfterDelivery(s, m, data, d, x);
    if x in s.engines[d].queue {
      InQueue(s, v, d, x);
      hide Live, ParkedAt;
      if m.Probe? && ErrandOf(m) == ErrandOf(x) { StartsAlone(s, v, m, x); }
      ProbeOk(s, v, l, m, data, x);
    } else {
      InLive(s, m);
      hide Live;
      ProbeOk(s, v, l, m, data, m);
    }
  }

  /** An engine at rest holds no data. */
  lemma RestEmpty(s: System, v: View, l: Log, m: Message, data: bool, d: Node)
    requires Inv(s, v) && DataExact(s, l) && AssertsHold(s, m) && d < |s.engines|
    ensures var e := EngineNext(s, m, data, d); !e.busy ==> !HasData(e)
  {
    hide Inv, AssertsHold;
  }

  lemma DataStep(s: System, v: View, l: Log, m: Message, data: bool)
    requires Inv(s, v) && DataExact(s, l) && m in s.net && AssertsHold(s, m) && !Mistaken(s, m)
    ensures DataExact(DeliverTo(s, m, data), Hear(l, s, m, data))
  {
    var s', l' := DeliverTo(s, m, data), Hear(l, s, m, data);
    EngineSize(s, m, data);
    forall x: Message | OnErrand(x) && Live(s', x) ensures MessageOk(s', l', x) { MessageStep(s, v, l, m, data, x); }
    forall d: Node | d < |s'.engines| && !s'.engines[d].busy ensures !HasData(s'.engines[d]) {
      EngineAfter(s, m, data, d);
      RestEmpty(s, v, l, m, data, d);
    }
  }

  /** The histories after the first n steps of a run. */
  function Heard(states: seq<System>, actions: seq<Action>, n: nat): Log
    requires n <= |actions| < |states|
  {
    if n == 0 then Log({}, {})
    else
      var l, a := Heard(states, actions, n - 1), actions[n - 1];
      if a.Deliver? then Hear(l, states[n - 1], a.msg, a.data) else l
  }

  /** A step that leaves the engines, the messages on errands and the kind of x's transaction alone. */
  lemma SameMessage(s: System, s': System, l: Log, x: Message)
    requires OnErrand(x) && MessageOk(s, l, x) && s'.engines == s.engines
    requires forall y: Message :: OnErrand(y) ==> s'.net[y] == s.net[y]
    requires Invalidates(s', x.source, x.line) <==> Invalidates(s, x.source, x.line)
    ensures MessageOk(s', l, x)
  {
    hide Invalidates, HasData;
  }

  /** Arriving and leaving transactions change no message that is on an errand. */
  lemma OutsideStep(s: System, v: View, l: Log, a: Action)
    requires Inv(s, v) && DataExact(s, l) && Enabled(s, a) && !a.Deliver?
    ensures DataExact(Apply(s, a), l)
  {
    OutsideEngines(s, a);
    var s' := Apply(s, a);
    forall x: Message | OnErrand(x) && Live(s', x) ensures MessageOk(s', l, x) {
      OutsideLive(s, a, x);
      assert MessageOk(s, l, x);
      OutsideMessage(s, v, l, a, x);
    }
    hide Inv, Live, MessageOk, Apply;
  }

  lemma OutsideEngines(s: System, a: Action)
    requires Enabled(s, a) && !a.Deliver?
    ensures Apply(s, a).engines == s.engines
    ensures forall y: Message :: OnErrand(y) ==> Apply(s, a).net[y] == s.net[y]
  {
  }

  lemma OutsideMessage(s: System, v: View, l: Log, a: Action, x: Message)
    requires Inv(s, v) && Enabled(s, a) && !a.Deliver? && OnErrand(x) && Live(s, x) && MessageOk(s, l, x)
    ensures MessageOk(Apply(s, a), l, x)
  {
    hide Inv, Live, MessageOk, Apply;
    OutsideEngines(s, a);
    Wanted(s, v, x);
    OutsideKind(s, a, x.source, x.line);
    SameMessage(s, Apply(s, a), l, x);
  }

  lemma OutsideLive(s: System, a: Action, x: Message)
    requires Enabled(s, a) && !a.Deliver? && OnErrand(x) && Live(Apply(s, a), x)
    ensures Live(s, x)
  {
  }

  lemma OutsideKind(s: System, a: Action, source: Node, line: Line)
    requires Enabled(s, a) && !a.Deliver?
    requires source < |s.requesters| && line in s.requesters[source] && !s.requesters[source][line].woken
    ensures Invalidates(Apply(s, a), source, line) <==> Invalidates(s, source, line)
  {
  }

  lemma {:induction false} RunData(states: seq<System>, actions: seq<Action>, n: nat)
    requires IsRun(states, actions) && n <= |actions| && UnmistakenTo(states, actions, n)
    ensures DataExact(states[n], Heard(states, actions, n))
  {
    hide Inv, Hear, DeliverTo, StartAt, ResumeAt, AssertsHold, Mistaken, DataExact;
    if n == 0 {
      EmptyData(states[0]);
    } else {
      RunData(states, actions, n - 1);
      var s, a := states[n - 1], actions[n - 1];
      var v := RunInv(states, actions, n - 1);
      if a.Deliver? { DataStep(s, v, Heard(states, actions, n - 1), a.msg, a.data); }
      else { OutsideStep(s, v, Heard(states, actions, n - 1), a); }
    }
  }

  lemma EmptyData(s: System)
    requires Init(s)
    ensures DataExact(s, Log({}, {}))
  {
  }

  // ---------------------------------------------------------------- what the histories say

  /** Step i of the run brings data on errand t: a local cache answers with data, or local DRAM answers. */
  predicate BringsAt(actions: seq<Action>, i: nat, t: Errand)
  {
    && i < |actions| && actions[i].Deliver?
    && var m := actions[i].msg;
       || (m.CacheAck? && actions[i].data && Errand(m.line, m.source, m.home, m.dest) == t)
       || (m.DramAck? && Errand(m.line, m.source, m.home, m.home) == t)
  }

  /** Step i of the run writes back the line of errand t. */
  predicate WritesBackAt(actions: seq<Action>, i: nat, t: Errand)
  {
    && i < |actions| && actions[i].Deliver?
    && var m := actions[i].msg; m.Evict? && Errand(m.line, m.source, m.home, m.dest) == t
  }

  /** Home h takes up a request at step i. */
  predicate OpensAt(states: seq<System>, actions: seq<Action>, i: nat, h: Node)
  {
    i < |actions| && i < |states| && actions[i].Deliver? && actions[i].msg.home == h && Opens(states[i], actions[i].msg)
  }

  /** Steps i to n - 1 take up no request at home h. */
  ghost predicate SameService(states: seq<System>, actions: seq<Action>, i: nat, n: nat, h: Node)
  {
    forall j: nat :: i <= j < n ==> !OpensAt(states, actions, j, h)
  }

  lemma {:induction false} BroughtMeans(states: seq<System>, actions: seq<Action>, n: nat, t: Errand)
    requires n <= |actions| < |states|
    ensures t in Heard(states, actions, n).brought <==>
            exists i: nat :: i < n && BringsAt(actions, i, t) && SameService(states, actions, i, n, t.home)
  {
    if n > 0 {
      BroughtMeans(states, actions, n - 1, t);
      var a := actions[n - 1];
      if OpensAt(states, actions, n - 1, t.home) {
      } else if BringsAt(actions, n - 1, t) {
        assert SameService(states, actions, n - 1, n, t.home);
      } else if i: nat :| i < n - 1 && BringsAt(actions, i, t) && SameService(states, actions, i, n - 1, t.home) {
        assert SameService(states, actions, i, n, t.home);
      }
    }
  }

  lemma {:induction false} WrittenMeans(states: seq<System>, actions: seq<Action>, n: nat, t: Errand)
    requires n <= |actions| < |states|
    ensures t in Heard(states, actions, n).written <==>
            exists i: nat :: i < n && WritesBackAt(actions, i, t) && SameService(states, actions, i, n, t.home)
  {
    if n > 0 {
      WrittenMeans(states, actions, n - 1, t);
      var a := actions[n - 1];
      if OpensAt(states, actions, n - 1, t.home) {
      } else if WritesBackAt(actions, n - 1, t) {
        assert SameService(states, actions, n - 1, n, t.home);
      } else if i: nat :| i < n - 1 && WritesBackAt(actions, i, t) && SameService(states, actions, i, n - 1, t.home) {
        assert SameService(states, actions, i, n, t.home);
      }
    }
  }

  /**
   In every unmistaken run, an acknowledgement in flight from socket d carries data if
   and only if, since its home took up the request, a local cache of d has answered this
   request with data, or d is the home and its DRAM has answered.
   */
  lemma AckCarriesData(states: seq<System>, actions: seq<Action>, m: Message)
    requires IsRun(states, actions) && UnmistakenTo(states, actions, |actions|)
    requires m.Ack? && m in states[|actions|].net
    ensures var t, n := Errand(m.line, m.source, m.home, m.origin), |actions|;
            m.data <==> exists i: nat :: i < n && BringsAt(actions, i, t) && SameService(states, actions, i, n, m.home)
  {
    hide IsRun, UnmistakenTo, SameService, BringsAt, Heard;
    var n := |actions|;
    RunLength(states, actions);
    RunData(states, actions, n);
    InLive(states[n], m);
    assert MessageOk(states[n], Heard(states, actions, n), m);
    BroughtMeans(states, actions, n, ErrandOf(m));
  }

  lemma RunLength(states: seq<System>, actions: seq<Action>)
    requires IsRun(states, actions)
    ensures |states| == |actions| + 1
  {
  }

  /**
   In every unmistaken run, the acknowledgement of an invalidation is in flight with data
   only once the dirty line has been written back; no other request writes a line back.
   */
  lemma WrittenBackFirst(states: seq<System>, actions: seq<Action>, m: Message)
    requires IsRun(states, actions) && UnmistakenTo(states, actions, |actions|)
    requires m.Ack? && m in states[|actions|].net
    ensures m.source < Total(states[|actions|]) && m.line in states[|actions|].requesters[m.source]
    ensures var t, n := Errand(m.line, m.source, m.home, m.origin), |actions|;
            (exists i: nat :: i < n && WritesBackAt(actions, i, t) && SameService(states, actions, i, n, m.home))
            <==> m.data && states[n].requesters[m.source][m.line].kind.Invalidate?
  {
    hide IsRun, UnmistakenTo, SameService, WritesBackAt, Heard, Inv;
    var n := |actions|;
    RunLength(states, actions);
    RunData(states, actions, n);
    InLive(states[n], m);
    var v := RunInv(states, actions, n);
    Wanted(states[n], v, m);
    assert MessageOk(states[n], Heard(states, actions, n), m);
    WrittenMeans(states, actions, n, ErrandOf(m));
  }
}
