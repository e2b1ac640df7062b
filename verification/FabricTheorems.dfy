/**
 Safety of the fabric over its runs.  With memory migration off the results hold in
 every run; with migration on they hold in every orderly run, and `SerialExactly`
 shows that this condition is exact for serialisation.
 */
module FabricTheorems {
  import opened Requests
  import opened Wrappers
  import opened Fabric
  import opened FabricView
  import opened FabricEngine
  import opened FabricAnswers
  import opened FabricCollect
  import opened FabricHomes
  import opened FabricRuns

  // ---------------------------------------------------------------- serialisation

  /** Each home has messages of one request only, and is busy as long as there are any. */
  ghost predicate HomesSerial(s: System)
  {
    forall m1: Message, m2: Message :: Live(s, m1) && Live(s, m2) ==>
      && m1.home < |s.homes| && s.homes[m1.home].busy
      && (m1.home == m2.home ==> m1.line == m2.line && m1.source == m2.source)
  }

  /** Each home serves at most one request at a time, and so does each line in the whole system. */
  ghost predicate Serial(s: System)
  {
    && HomesSerial(s)
    && forall m1: Message, m2: Message :: Live(s, m1) && Live(s, m2) ==>
         (m1.line == m2.line ==> m1.home == m2.home && m1.source == m2.source)
  }

  lemma InvSerial(s: System, v: View)
    requires Inv(s, v)
    ensures HomesSerial(s) && (v.single ==> Serial(s))
  {
    hide Live, Inv;
    forall m1: Message, m2: Message | Live(s, m1) && Live(s, m2)
      ensures m1.home < |s.homes| && s.homes[m1.home].busy
      ensures m1.home == m2.home ==> m1.line == m2.line && m1.source == m2.source
      ensures v.single && m1.line == m2.line ==> m1.home == m2.home && m1.source == m2.source
    {
      LiveServed(s, v, m1);
      LiveServed(s, v, m2);
      ServiceHome(s, v, m1.home);
      IdleHome(s, v, m1.home);
      if v.single && m1.line == m2.line { OneService(s, v, m1.home, m2.home); }
    }
  }

  lemma OneService(s: System, v: View, h: Node, k: Node)
    requires Inv(s, v) && v.single && h in v.serving && k in v.serving && v.serving[h].line == v.serving[k].line
    ensures h == k
  {
  }

  /**
   A run serves one request per home and one per line at all times if and only if
   every request taken into service was for a line not in service elsewhere.
   */
  lemma SerialExactly(states: seq<System>, actions: seq<Action>)
    requires IsRun(states, actions)
    ensures (forall i :: 0 <= i <= |actions| ==> Serial(states[i])) <==> OrderlyTo(states, actions, |actions|)
  {
    hide Enabled, Safe, Apply, Serial, Orderly, Inv, Strands, Mistaken, HomesSerial;
    if OrderlyTo(states, actions, |actions|) {
      OrderlyUnmistaken(states, actions, |actions|);
      forall i | 0 <= i <= |actions| ensures Serial(states[i]) {
        var v := RunInv(states, actions, i);
        InvSerial(states[i], v);
      }
    }
    if forall i :: 0 <= i <= |actions| ==> Serial(states[i]) {
      forall i | 0 <= i < |actions| ensures Orderly(states[i], actions[i]) {
        NotEmpty(states, actions, i);
        assert Serial(states[i]) && Serial(states[i + 1]);
        SerialOrderly(states[i], actions[i]);
      }
    }
  }

  lemma {:induction false} NotEmpty(states: seq<System>, actions: seq<Action>, n: nat)
    requires IsRun(states, actions) && n <= |actions|
    ensures Total(states[n]) >= 1
  {
    hide Enabled, Safe;
    if n > 0 {
      NotEmpty(states, actions, n - 1);
      StepMode(states[n - 1], actions[n - 1]);
    }
  }

  lemma SerialOrderly(s: System, a: Action)
    requires Enabled(s, a) && Safe(s, a) && Serial(s) && Serial(Apply(s, a)) && Total(s) >= 1
    ensures Orderly(s, a)
  {
    hide Serial;
    if a.Deliver? && Opens(s, a.msg) {
      var r, s' := a.msg, Apply(s, a);
      var p := Probe(r.line, r.source, r.home, 0, r.kind, false);
      FanCount(r, Total(s), p);
      OpenedNet(s, r, a.data);
      assert p in s'.net;
      forall m: Message | Live(s, m) ensures m.line != r.line {
        StaysLive(s, r, a.data, m);
        SerialPair(s, m, m);
        SerialPair(s', m, p);
      }
    }
  }

  lemma OpenedNet(s: System, r: Message, data: bool)
    requires AssertsHold(s, r) && Opens(s, r)
    ensures forall m: Message :: DeliverTo(s, r, data).net[m] >= (s.net - multiset{r} + Fan(r, Total(s)))[m]
    ensures DeliverTo(s, r, data).engines == s.engines
  {
    hide Fan;
  }

  lemma StaysLive(s: System, r: Message, data: bool, m: Message)
    requires AssertsHold(s, r) && Opens(s, r) && Live(s, m)
    ensures Live(DeliverTo(s, r, data), m)
  {
    OpenedNet(s, r, data);
    hide DeliverTo, Fan;
    if m in s.net { assert (s.net - multiset{r})[m] >= 1; }
  }

  lemma SerialPair(s: System, m1: Message, m2: Message)
    requires Serial(s) && Live(s, m1) && Live(s, m2)
    ensures m1.home < |s.homes| && s.homes[m1.home].busy
    ensures m1.home == m2.home ==> m1.line == m2.line && m1.source == m2.source
    ensures m1.line == m2.line ==> m1.home == m2.home && m1.source == m2.source
  {
  }

  /** In every reachable state each home has messages of one request only; with migration off each line has. */
  lemma Serialised(s: System)
    requires Reachable(s)
    ensures HomesSerial(s) && (!s.migrate ==> Serial(s))
  {
    hide Reachable, HomesSerial, Serial, Inv;
    var v := Explained(s);
    InvSerial(s, v);
  }

  /** In every state reached by an orderly run each line has messages of one request only. */
  lemma SerialisedLines(s: System)
    requires OrderlyReachable(s)
    ensures Serial(s)
  {
    hide OrderlyReachable, Serial, HomesSerial, Inv;
    var v := ExplainedSingle(s);
    InvSerial(s, v);
  }

  // ---------------------------------------------------------------- no request is lost or duplicated

  /** m is a request that waits to be taken into service, in flight or parked. */
  ghost predicate RequestWaits(s: System, m: Message)
  {
    m.Req? && (m in s.net || exists h: Node :: h < |s.homes| && m in s.homes[h].queue)
  }

  /** Copies of the request of transaction (source, line): in flight plus parked at home h. */
  function Copies(s: System, source: Node, line: Line, h: Node, kind: Kind): nat
    requires h < |s.homes|
  {
    s.net[Req(line, source, h, kind, false)] + s.net[Req(line, source, h, kind, true)]
    + multiset(s.homes[h].queue)[Req(line, source, h, kind, false)]
  }

  /** The home is busy, and with this request only. */
  ghost predicate WorksFor(s: System, h: Node, line: Line, source: Node)
  {
    && h < |s.homes| && s.homes[h].busy
    && (exists m: Message :: Live(s, m) && m.home == h)
    && forall m: Message :: Live(s, m) && m.home == h ==> m.line == line && m.source == source
  }

  /**
   A transaction's request has one home; it is in exactly one place there, or the
   home is working for it and for nothing else, or it has been unblocked.
   */
  lemma RequestConserved(s: System, source: Node, line: Line) returns (h: Node)
    requires Reachable(s) && source < Total(s) && line in s.requesters[source]
    ensures h < |s.homes| && line in s.owner && (!s.migrate ==> s.owner[line] == h)
    ensures var t := s.requesters[source][line]; var n := Copies(s, source, line, h, t.kind);
            && n <= 1
            && (n == 1 ==> t.acks == 0 && !t.unblocked)
            && (n == 0 && !t.unblocked ==> WorksFor(s, h, line, source) && t.acks < Total(s))
            && forall m: Message :: RequestWaits(s, m) && m.source == source && m.line == line ==>
                                      m.home == h && m.kind == t.kind
  {
    hide Reachable, Live;
    var v := Explained(s);
    var x, t := (source, line), s.requesters[source][line];
    assert Transactions(s.requesters, v) && x in v.pending && TransactionOk(t, v.pending[x], v, Total(s));
    assert Owners(s.owner, v, Total(s));
    h := v.pending[x].home;
    CopiesByStage(s, v, x);
    if v.pending[x].stage == Serving { ServingWorks(s, v, x); }
    forall m: Message | RequestWaits(s, m) && m.source == source && m.line == line
      ensures m.home == h && m.kind == t.kind
    {
      WaitingPending(s, v, m);
    }
  }

  lemma CopiesByStage(s: System, v: View, x: Key)
    requires Inv(s, v) && x in v.pending
    ensures var p := v.pending[x];
            && p.home < |s.homes|
            && Copies(s, x.0, x.1, p.home, p.kind) == One(p.stage.Flying? || p.stage.Held?)
  {
    var p := v.pending[x];
    assert HomeOk(s.homes[p.home], v, p.home);
    var q := Req(x.1, x.0, p.home, p.kind, false);
    assert s.net[q] == Expected(v, q);
    var r := Req(x.1, x.0, p.home, p.kind, true);
    assert s.net[r] == Expected(v, r);
    assert multiset(s.homes[p.home].queue)[q] == One(HeldAt(v, p.home, q));
  }

  lemma WaitingPending(s: System, v: View, m: Message)
    requires Inv(s, v) && RequestWaits(s, m)
    ensures (m.source, m.line) in v.pending
    ensures var p := v.pending[(m.source, m.line)];
            && p.kind == m.kind && p.home == m.home && (p.stage.Flying? || p.stage.Held?)
            && forall h: Node :: h < |s.homes| && m in s.homes[h].queue ==> h == m.home
  {
    if m in s.net { InFlight(s.net, v, m); }
    forall h: Node | h < |s.homes| && m in s.homes[h].queue ensures HeldAt(v, h, m) {
      assert HomeOk(s.homes[h], v, h);
      assert multiset(s.homes[h].queue)[m] == One(HeldAt(v, h, m));
    }
  }

  lemma ServingWorks(s: System, v: View, x: Key)
    requires Inv(s, v) && x in v.pending && v.pending[x].stage == Serving
    ensures WorksFor(s, v.pending[x].home, x.1, x.0)
  {
    hide Live;
    var h := v.pending[x].home;
    ServiceHome(s, v, h);
    IdleHome(s, v, h);
    var m := OwnMessage(s, v, h);
    forall m: Message | Live(s, m) && m.home == h ensures m.line == x.1 && m.source == x.0 { LiveServed(s, v, m); }
  }

  /** Conversely, every request in flight or parked belongs to a transaction that still waits for it. */
  lemma NoStrayRequest(s: System, m: Message)
    requires Reachable(s) && RequestWaits(s, m)
    ensures m.source < Total(s) && m.line in s.requesters[m.source] && m.home < Total(s)
    ensures s.requesters[m.source][m.line].kind == m.kind && m.line in s.owner
    ensures (!s.migrate ==> s.owner[m.line] == m.home)
    ensures forall h: Node :: h < |s.homes| && m in s.homes[h].queue ==> h == m.home
  {
    hide Reachable, RequestWaits;
    var v := Explained(s);
    var x := (m.source, m.line);
    WaitingPending(s, v, m);
    assert TransactionOk(s.requesters[x.0][x.1], v.pending[x], v, Total(s));
    assert Owners(s.owner, v, Total(s));
  }

  /** A home that is idle with requests parked, and no request notified again on its way to it. */
  ghost predicate Stuck(s: System, h: Node)
  {
    && h < |s.homes| && !s.homes[h].busy && s.homes[h].queue != []
    && forall m: Message :: m in s.net && m.Req? && m.home == h ==> !m.again
  }

  /** While nobody has been left behind, an idle home with parked requests has a re-notified request on its way. */
  lemma QueueProgress(s: System, h: Node)
    requires Flowing(s)
    ensures !Stuck(s, h)
  {
    hide Flowing;
    var v := ExplainedLively(s);
    LivelyHome(s, v, h);
  }

  lemma LivelyHome(s: System, v: View, h: Node)
    requires Inv(s, v) && v.lively
    ensures !Stuck(s, h)
  {
    if h < |s.homes| && !s.homes[h].busy && s.homes[h].queue != [] {
      assert HomeOk(s.homes[h], v, h);
      var x: Key :| x in v.pending && v.pending[x].stage == Flying(true) && v.pending[x].home == h;
      var m := Req(x.1, x.0, h, v.pending[x].kind, true);
      assert s.net[m] == Expected(v, m);
      assert m in s.net;
    }
  }

  /** An idle probe engine with parked probes always has a re-notified probe on its way. */
  lemma ProbeProgress(s: System, d: Node)
    requires Reachable(s) && d < |s.engines| && !s.engines[d].busy && s.engines[d].queue != []
    ensures exists m: Message :: m in s.net && m.Probe? && m.dest == d && m.again
  {
    hide Reachable, Inv, Owners, ServicesOk, Transactions, Homes, Engines;
    hide Rest, ParkedExact, BusyExact, EarlyExact, Distinct, ServiceOk;
    var v := Explained(s);
    Parts(s, v);
    Focus(s, v, d);
    assert EngineLive(s.engines[d], v.serving, d);
    var h: Node :| ProbeIs(v.serving, h, d, Fresh(true));
    var m := Probe(v.serving[h].line, v.serving[h].source, h, d, v.serving[h].kind, true);
    assert s.net[m] == Expected(v, m);
    assert m in s.net;
  }

  // ---------------------------------------------------------------- acknowledgement counting

  /** The request's probe of socket d is in flight or parked. */
  predicate ProbeOut(s: System, line: Line, source: Node, h: Node, kind: Kind, d: Node)
    requires d < |s.engines|
  {
    || Probe(line, source, h, d, kind, false) in s.net
    || Probe(line, source, h, d, kind, true) in s.net
    || Probe(line, source, h, d, kind, false) in s.engines[d].queue
  }

  /** Socket d's engine works on the request: a question or an answer, or the write-back, is in flight. */
  predicate WorkOut(s: System, line: Line, source: Node, h: Node, kind: Kind, d: Node)
  {
    || CacheProbe(line, source, h, d, kind) in s.net
    || CacheAck(line, source, h, d, kind) in s.net
    || Evict(line, source, h, d) in s.net
    || (d == h && (DramRead(line, source, h) in s.net || DramAck(line, source, h) in s.net))
  }

  /** Socket d still owes an acknowledgement for the request: its probe is in flight, parked or being worked on. */
  predicate Unanswered(s: System, line: Line, source: Node, h: Node, kind: Kind, d: Node)
    requires d < |s.engines|
  {
    ProbeOut(s, line, source, h, kind, d) || WorkOut(s, line, source, h, kind, d)
  }

  /** Acknowledgements of socket d in flight, with data or without. */
  function AcksFlying(s: System, line: Line, source: Node, h: Node, d: Node): nat
  {
    s.net[Ack(line, source, h, d, true)] + s.net[Ack(line, source, h, d, false)]
  }

  predicate AckFlying(s: System, line: Line, source: Node, h: Node, d: Node)
  {
    AcksFlying(s, line, source, h, d) > 0
  }

  /** For a request in service every socket is in exactly one of three states. */
  lemma SocketTrichotomy(s: System, source: Node, line: Line, d: Node) returns (h: Node)
    requires Reachable(s) && source < Total(s) && line in s.requesters[source] && d < |s.engines|
    requires InService(s, source, line)
    ensures WorksFor(s, h, line, source) && line in s.owner && (!s.migrate ==> s.owner[line] == h)
    ensures var t := s.requesters[source][line];
            One(Unanswered(s, line, source, h, t.kind, d)) + One(AckFlying(s, line, source, h, d)) + One(d in t.bits) == 1
    ensures AcksFlying(s, line, source, h, d) <= 1
  {
    hide Reachable, InService, WorksFor;
    var v := Explained(s);
    h := ServingView(s, v, source, line);
    ServingWorks(s, v, (source, line));
    SocketCase(s, v, source, line, h, d);
  }

  /** Its request has left every queue and its unblock has not been sent yet. */
  ghost predicate InService(s: System, source: Node, line: Line)
    requires source < Total(s) && line in s.requesters[source]
  {
    !s.requesters[source][line].unblocked
    && forall m: Message :: RequestWaits(s, m) ==> !(m.source == source && m.line == line)
  }

  lemma ServingView(s: System, v: View, source: Node, line: Line) returns (h: Node)
    requires Inv(s, v) && source < Total(s) && line in s.requesters[source] && InService(s, source, line)
    ensures line in s.owner && (v.still ==> s.owner[line] == h)
    ensures var x, t := (source, line), s.requesters[source][line];
            && x in v.pending && v.pending[x] == Pending(t.kind, h, Serving)
            && Serves(v.serving, h, line, source) && v.serving[h].kind == t.kind && !v.serving[h].done
            && |v.serving[h].sockets| == Total(s) == |s.engines| && t.acks == |t.bits|
            && ServiceOk(v.serving[h], h, Total(s))
            && (forall d: Node :: d in t.bits <==> d < Total(s) && v.serving[h].sockets[d] == Recorded)
  {
    var x, t := (source, line), s.requesters[source][line];
    assert x in v.pending && TransactionOk(t, v.pending[x], v, Total(s));
    assert Owners(s.owner, v, Total(s));
    h := v.pending[x].home;
    NotWaiting(s, v, x);
    assert ServicesOk(v, Total(s));
    assert ServiceOk(v.serving[h], h, Total(s));
  }

  lemma NotWaiting(s: System, v: View, x: Key)
    requires Inv(s, v) && x in v.pending
    requires forall m: Message :: RequestWaits(s, m) ==> !(m.source == x.0 && m.line == x.1)
    ensures !v.pending[x].stage.Flying? && !v.pending[x].stage.Held?
  {
    var p := v.pending[x];
    CopiesByStage(s, v, x);
    var q, r := Req(x.1, x.0, p.home, p.kind, false), Req(x.1, x.0, p.home, p.kind, true);
    assert !RequestWaits(s, q) && !RequestWaits(s, r);
  }

  lemma SocketCase(s: System, v: View, source: Node, line: Line, h: Node, d: Node)
    requires Inv(s, v) && d < |s.engines| && Serves(v.serving, h, line, source) && d < |v.serving[h].sockets|
    ensures var k := v.serving[h].sockets[d];
            && Unanswered(s, line, source, h, v.serving[h].kind, d) == (k.Fresh? || k.Queued? || k.Probing? || k.Evicting?)
            && AcksFlying(s, line, source, h, d) == One(k.Acked?)
  {
    hide Inv, Owners, ServicesOk, Transactions, Homes, Engines, Rest, EarlyExact, EngineLive, NetExact, ParkedExact;
    hide ProbeOut, WorkOut, AcksFlying;
    EngineCount(s, v);
    Focus(s, v, d);
    var a := v.serving[h];
    AcksCount(s, v, source, line, h, d);
    SocketProbe(s, v, source, line, h, d);
    SocketWork(s, v, source, line, h, d);
    assert Occupies(v.serving, h, d) == (a.sockets[d].Probing? || a.sockets[d].Evicting?);
  }

  lemma SocketProbe(s: System, v: View, source: Node, line: Line, h: Node, d: Node)
    requires NetExact(s.net, v) && d < |s.engines| && ParkedExact(s.engines[d].queue, v.serving, d)
    requires Serves(v.serving, h, line, source) && d < |v.serving[h].sockets|
    ensures var k := v.serving[h].sockets[d];
            ProbeOut(s, line, source, h, v.serving[h].kind, d) == (k.Fresh? || k.Queued?)
  {
    var p := Probe(line, source, h, d, v.serving[h].kind, false);
    assert s.net[p] == Expected(v, p);
    var r := Probe(line, source, h, d, v.serving[h].kind, true);
    assert s.net[r] == Expected(v, r);
    assert multiset(s.engines[d].queue)[p] == One(ParkedAt(v.serving, d, p));
  }

  lemma SocketWork(s: System, v: View, source: Node, line: Line, h: Node, d: Node)
    requires NetExact(s.net, v) && Serves(v.serving, h, line, source) && d < |v.serving[h].sockets|
    requires ServiceOk(v.serving[h], h, |v.serving[h].sockets|)
    requires v.serving[h].sockets[d].Probing? ==> Owed(v.serving[h], h, d) >= 1
    ensures var k := v.serving[h].sockets[d]; var out := WorkOut(s, line, source, h, v.serving[h].kind, d);
            (k.Probing? || k.Evicting? ==> out) && (out ==> !k.Acked? && !k.Recorded?)
  {
    var kind := v.serving[h].kind;
    assert s.net[CacheProbe(line, source, h, d, kind)] == Expected(v, CacheProbe(line, source, h, d, kind));
    assert s.net[CacheAck(line, source, h, d, kind)] == Expected(v, CacheAck(line, source, h, d, kind));
    assert s.net[DramRead(line, source, h)] == Expected(v, DramRead(line, source, h));
    assert s.net[DramAck(line, source, h)] == Expected(v, DramAck(line, source, h));
    assert s.net[Evict(line, source, h, d)] == Expected(v, Evict(line, source, h, d));
  }

  lemma AcksCount(s: System, v: View, source: Node, line: Line, h: Node, d: Node)
    requires NetExact(s.net, v) && Serves(v.serving, h, line, source) && d < |v.serving[h].sockets|
    ensures AcksFlying(s, line, source, h, d) == One(v.serving[h].sockets[d].Acked?)
  {
    var with, without := Ack(line, source, h, d, true), Ack(line, source, h, d, false);
    assert s.net[with] == Expected(v, with);
    assert s.net[without] == Expected(v, without);
  }

  /** The sockets that still owe an acknowledgement for a request. */
  function UnansweredSet(s: System, line: Line, source: Node, h: Node, kind: Kind): set<Node>
  {
    set d | d in Nodes(|s.engines|) && Unanswered(s, line, source, h, kind, d)
  }

  /** The sockets whose acknowledgement is in flight. */
  function FlyingSet(s: System, line: Line, source: Node, h: Node): set<Node>
  {
    set d | d in Nodes(|s.engines|) && AckFlying(s, line, source, h, d)
  }

  /** Unanswered probes, acknowledgements in flight and recorded bits add up to the socket count. */
  lemma AckBalance(s: System, source: Node, line: Line) returns (h: Node)
    requires Reachable(s) && source < Total(s) && line in s.requesters[source] && InService(s, source, line)
    ensures WorksFor(s, h, line, source)
    ensures var t := s.requesters[source][line];
            |UnansweredSet(s, line, source, h, t.kind)| + |FlyingSet(s, line, source, h)| + t.acks == Total(s)
  {
    hide Reachable, InService, WorksFor;
    var v := Explained(s);
    var t := s.requesters[source][line];
    h := ServingView(s, v, source, line);
    ServingWorks(s, v, (source, line));
    var u, f := UnansweredSet(s, line, source, h, t.kind), FlyingSet(s, line, source, h);
    forall d: Node | d < Total(s) ensures One(d in u) + One(d in f) + One(d in t.bits) == 1 {
      SocketCase(s, v, source, line, h, d);
    }
    Partition(Total(s), u, f, t.bits);
  }

  lemma Partition(n: nat, a: set<Node>, b: set<Node>, c: set<Node>)
    requires a <= Nodes(n) && b <= Nodes(n) && c <= Nodes(n)
    requires forall d: Node :: d < n ==> One(d in a) + One(d in b) + One(d in c) == 1
    ensures |a| + |b| + |c| == n
  {
    assert a !! b && (a + b) !! c;
    assert a + b + c == Nodes(n);
  }

  /**
   A busy engine counts down the local answers still on their way, DRAM's
   included, for one request, which its home works for.  Every cache probe or
   cache answer in flight at the socket is for that request.  The count is zero
   only while the dirty line is being written back.
   */
  lemma EngineCounts(s: System, d: Node) returns (source: Node, h: Node, kind: Kind)
    requires Reachable(s) && d < |s.engines| && s.engines[d].busy
    ensures var line := s.engines[d].line;
            && line in s.owner && (!s.migrate ==> s.owner[line] == h)
            && s.engines[d].owed == AnswersOwed(s, line, source, h, d, kind)
            && (s.engines[d].owed == 0 ==> Evict(line, source, h, d) in s.net)
            && forall m: Message :: m in s.net && (m.CacheProbe? || m.CacheAck?) && m.dest == d ==>
                 m == CacheProbe(line, source, h, d, kind) || m == CacheAck(line, source, h, d, kind)
  {
    hide Reachable, Inv, AnswersOwed, Expected;
    var v := Explained(s);
    h := Occupant(s, v, d);
    OccupantOwner(s, v, h, d);
    OccupantCounts(s, v, h, d);
    source, kind := v.serving[h].source, v.serving[h].kind;
    var line := s.engines[d].line;
    forall m: Message | m in s.net && (m.CacheProbe? || m.CacheAck?) && m.dest == d
      ensures m == CacheProbe(line, source, h, d, kind) || m == CacheAck(line, source, h, d, kind)
    {
      OnlyOccupant(s, v, h, d, m);
    }
  }

  lemma Occupant(s: System, v: View, d: Node) returns (h: Node)
    requires Inv(s, v) && d < |s.engines| && s.engines[d].busy
    ensures d < Total(s) && Occupies(v.serving, h, d) && s.engines[d].line == v.serving[h].line
  {
    hide Rest, ParkedExact, EarlyExact, EngineLive, Distinct;
    Focus(s, v, d);
    h :| Occupies(v.serving, h, d);
  }

  lemma OccupantCounts(s: System, v: View, h: Node, d: Node)
    requires Inv(s, v) && d < |s.engines| && s.engines[d].busy && Occupies(v.serving, h, d)
    ensures var line, source := s.engines[d].line, v.serving[h].source;
            && s.engines[d].owed == AnswersOwed(s, line, source, h, d, v.serving[h].kind)
            && (s.engines[d].owed == 0 ==> Evict(line, source, h, d) in s.net)
  {
    hide Inv, Owners, ServicesOk, Transactions, Homes, Engines, Rest, ParkedExact, EarlyExact, EngineLive, Distinct;
    hide NetExact, AnswersOwed;
    Parts(s, v);
    Focus(s, v, d);
    OccupantAnswers(s, v, h, d);
  }

  /** The answers in flight for an occupied engine, message by message. */
  lemma OccupantAnswers(s: System, v: View, h: Node, d: Node)
    requires NetExact(s.net, v) && Occupies(v.serving, h, d) && ServiceOk(v.serving[h], h, Total(s))
    ensures var a := v.serving[h];
            && (AnswersOwed(s, a.line, a.source, h, d, a.kind) == if a.sockets[d].Probing? then Owed(a, h, d) else 0)
            && (a.sockets[d].Evicting? ==> Evict(a.line, a.source, h, d) in s.net)
  {
    var line, source, kind := v.serving[h].line, v.serving[h].source, v.serving[h].kind;
    assert s.net[CacheProbe(line, source, h, d, kind)] == Expected(v, CacheProbe(line, source, h, d, kind));
    assert s.net[CacheAck(line, source, h, d, kind)] == Expected(v, CacheAck(line, source, h, d, kind));
    assert s.net[DramRead(line, source, h)] == Expected(v, DramRead(line, source, h));
    assert s.net[DramAck(line, source, h)] == Expected(v, DramAck(line, source, h));
    assert s.net[Evict(line, source, h, d)] == Expected(v, Evict(line, source, h, d));
  }

  lemma OccupantOwner(s: System, v: View, h: Node, d: Node)
    requires Inv(s, v) && Occupies(v.serving, h, d)
    ensures v.serving[h].line in s.owner && (v.still ==> s.owner[v.serving[h].line] == h)
  {
  }

  lemma OnlyOccupant(s: System, v: View, h: Node, d: Node, m: Message)
    requires Inv(s, v) && d < Total(s) && Occupies(v.serving, h, d)
    requires m in s.net && (m.CacheProbe? || m.CacheAck?) && m.dest == d
    ensures m.home == h && m.line == v.serving[h].line && m.source == v.serving[h].source && m.kind == v.serving[h].kind
  {
    hide Rest, ParkedExact, EarlyExact, EngineLive;
    Focus(s, v, d);
    assert s.net[m] == Expected(v, m);
    assert Occupies(v.serving, m.home, d);
  }

  function AnswersOwed(s: System, line: Line, source: Node, h: Node, d: Node, kind: Kind): nat
  {
    s.net[CacheProbe(line, source, h, d, kind)] + s.net[CacheAck(line, source, h, d, kind)]
    + if d == h then s.net[DramRead(line, source, h)] + s.net[DramAck(line, source, h)] else 0
  }

  // ---------------------------------------------------------------- a read is answered with data

  /** The acknowledgement of a read's home always carries data, so a read is never completed without. */
  lemma ReadAnswered(s: System, source: Node, line: Line)
    requires Reachable(s) && source < Total(s) && line in s.requesters[source] && s.requesters[source][line].kind.Read?
    ensures s.requesters[source][line].unblocked ==> s.requesters[source][line].answered
    ensures forall h: Node :: Ack(line, source, h, h, false) !in s.net
  {
    hide Reachable;
    var v := Explained(s);
    var x := (source, line);
    assert x in v.pending && TransactionOk(s.requesters[source][line], v.pending[x], v, Total(s));
    forall h: Node ensures Ack(line, source, h, h, false) !in s.net {
      var m := Ack(line, source, h, h, false);
      assert s.net[m] == Expected(v, m);
    }
  }

  // ---------------------------------------------------------------- unblocking

  /** Once a transaction is unblocked, nothing of its request is left but the unblock and the store. */
  lemma UnblockedIsOver(s: System, source: Node, line: Line, m: Message)
    requires Reachable(s) && source < Total(s) && line in s.requesters[source] && s.requesters[source][line].unblocked
    requires m in s.net && m.line == line && m.source == source
    ensures m.Unblock? || m.Store?
    ensures s.net[m] == 1
    ensures forall d: Node :: d < Total(s) ==> d in s.requesters[source][line].bits
  {
    hide Reachable, Inv, Owners, ServicesOk, Transactions, Homes, Engines;
    var v := Explained(s);
    Parts(s, v);
    var x := (source, line);
    assert x in v.pending && TransactionOk(s.requesters[source][line], v.pending[x], v, Total(s));
    InFlight(s.net, v, m);
    assert s.net[m] == Expected(v, m);
    if !m.Req? && !m.Store? {
      assert ServicesOk(v, Total(s));
      assert v.serving[m.home].done;
      assert ServiceOk(v.serving[m.home], m.home, Total(s));
      assert v.serving[m.home].sockets[m.home] == Recorded;
    }
  }

  /** An unblock in flight is the only message of its service, and its home is still busy. */
  lemma UnblockIsLast(s: System, u: Message, m: Message)
    requires Reachable(s) && u.Unblock? && u in s.net && Live(s, m) && m.home == u.home
    ensures u.home < |s.homes| && s.homes[u.home].busy
    ensures m == u && s.net[u] == 1
  {
    var v := Explained(s);
    LiveServed(s, v, u);
    LiveServed(s, v, m);
    ServiceHome(s, v, u.home);
    IdleHome(s, v, u.home);
    InFlight(s.net, v, u);
    assert s.net[u] == Expected(v, u);
    assert v.serving[u.home].sockets[u.home] == Recorded;
    if m !in s.net {
      var d: Node :| d < |s.engines| && m in s.engines[d].queue;
      NotParked(s, v, m, d);
      assert false;
    }
    InFlight(s.net, v, m);
  }

  lemma NotParked(s: System, v: View, m: Message, d: Node)
    requires Inv(s, v) && d < |s.engines| && m.home in v.serving && v.serving[m.home].done
    ensures m !in s.engines[d].queue
  {
    assert EngineCore(s.engines[d], v.serving, d);
    assert ServicesOk(v, Total(s));
    assert ServiceOk(v.serving[m.home], m.home, Total(s));
    assert multiset(s.engines[d].queue)[m] == One(ParkedAt(v.serving, d, m));
  }
}
