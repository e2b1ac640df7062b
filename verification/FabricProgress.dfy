/**
 Progress of the fabric: parked requests are taken up in order, there is always a
 message in flight while somebody waits, and deliveries alone come to an end with
 everybody served.
 */
module FabricProgress {
  import opened Requests
  import opened Wrappers
  import opened Fabric
  import opened FabricRank
  import opened FabricView
  import opened FabricEngine
  import opened FabricAnswers
  import opened FabricHomes
  import opened FabricRuns
  import opened FabricTheorems

  // ---------------------------------------------------------------- no deadlock

  /** As long as some transaction has not been woken, a message is in flight and a step is enabled. */
  lemma NoDeadlock(s: System, source: Node, line: Line)
    requires Flowing(s) && source < Total(s) && line in s.requesters[source] && !s.requesters[source][line].woken
    ensures exists m: Message :: m in s.net && Enabled(s, Deliver(m, true))
  {
    var v := ExplainedLively(s);
    var x := (source, line);
    assert x in v.pending && TransactionOk(s.requesters[source][line], v.pending[x], v, Total(s));
    var m := Mover(s, v, x);
    assert Enabled(s, Deliver(m, true));
  }

  lemma Mover(s: System, v: View, x: Key) returns (m: Message)
    requires Inv(s, v) && x in v.pending && v.pending[x].stage != Woken && (v.lively || v.pending[x].stage != Held)
    ensures m in s.net
  {
    var p := v.pending[x];
    match p.stage
    case Flying(again) =>
      m := Req(x.1, x.0, p.home, p.kind, again);
      assert s.net[m] == Expected(v, m);
    case Storing =>
      m := Store(x.1, x.0, p.home);
      assert TransactionOk(s.requesters[x.0][x.1], p, v, Total(s));
      assert s.net[m] == Expected(v, m);
    case Serving => m := ServiceMover(s, v, p.home);
    case Held =>
      var r := Req(x.1, x.0, p.home, p.kind, false);
      assert Owners(s.owner, v, Total(s));
      assert HomeOk(s.homes[p.home], v, p.home);
      assert multiset(s.homes[p.home].queue)[r] == One(HeldAt(v, p.home, r));
      assert v.lively;
      if s.homes[p.home].busy { m := ServiceMover(s, v, p.home); }
      else {
        var y: Key :| y in v.pending && v.pending[y].stage == Flying(true) && v.pending[y].home == p.home;
        m := Req(y.1, y.0, p.home, v.pending[y].kind, true);
        assert s.net[m] == Expected(v, m);
      }
  }

  /** A request in service always has something in flight: its own, or what occupies the engine it waits for. */
  lemma ServiceMover(s: System, v: View, h: Node) returns (m: Message)
    requires Inv(s, v) && h in v.serving
    ensures m in s.net
  {
    hide Inv, Serves;
    m := OwnMessage(s, v, h);
    if m !in s.net {
      var d: Node :| d < |s.engines| && m in s.engines[d].queue;
      m := EngineMover(s, v, d);
    }
  }

  lemma EngineMover(s: System, v: View, d: Node) returns (m: Message)
    requires Inv(s, v) && d < |s.engines| && s.engines[d].queue != []
    ensures m in s.net && !m.Req?
  {
    hide Inv, Rest, EarlyExact, Distinct, ServiceOk, ParkedExact;
    EngineCount(s, v);
    Focus(s, v, d);
    var e := s.engines[d];
    if e.busy {
      var k: Node :| Occupies(v.serving, k, d);
      m := OccupantMover(s, v, k, d);
    } else {
      var k: Node :| ProbeIs(v.serving, k, d, Fresh(true));
      m := Probe(v.serving[k].line, v.serving[k].source, k, d, v.serving[k].kind, true);
      assert s.net[m] == Expected(v, m);
    }
  }

  // ---------------------------------------------------------------- completion

  /** A run of deliveries alone: no transaction starts or resumes.  Where lines can move it is unmistaken. */
  ghost predicate Deliveries(states: seq<System>, msgs: seq<Message>, data: seq<bool>)
  {
    && |states| == |msgs| + 1 && |data| == |msgs|
    && forall i :: 0 <= i < |msgs| ==>
         && msgs[i] in states[i].net && AssertsHold(states[i], msgs[i])
         && (states[i].migrate ==> !Mistaken(states[i], msgs[i]))
         && states[i + 1] == DeliverTo(states[i], msgs[i], data[i])
  }

  /** Promises do not weigh. */
  lemma KeepingRank(s: System, v: View, a: Action, n: nat, c: nat)
    ensures Rank(Keeping(s, v, a), n, c) == Rank(v, n, c)
  {
  }

  lemma CleanFalls(s: System, v: View, m: Message, data: bool) returns (v': View)
    requires Inv(s, v) && m in s.net && Clean(s, Deliver(m, data))
    ensures AssertsHold(s, m) && Inv(DeliverTo(s, m, data), v')
    ensures Total(DeliverTo(s, m, data)) == Total(s) && DeliverTo(s, m, data).caches == s.caches
    ensures Rank(v', Total(s), s.caches) < Rank(v, Total(s), s.caches)
    ensures v'.single == Keeping(s, v, Deliver(m, data)).single
  {
    hide Inv, Rank, DeliverTo, AssertsHold, Keeping, Orderly, Admissible, Clean;
    var a := Deliver(m, data);
    KeepingAdmits(s, v, a);
    KeepingRank(s, v, a, Total(s), s.caches);
    v' := DeliverInv(s, Keeping(s, v, a), m, data);
    SameSize(s, m, data);
  }

  lemma DeliveryClean(s: System, v: View, m: Message, data: bool)
    requires Inv(s, v) && m in s.net && AssertsHold(s, m) && (s.migrate ==> !Mistaken(s, m))
    ensures Clean(s, Deliver(m, data))
  {
    hide Inv, Mistaken, Orderly;
    if !s.migrate { OffOrderly(s, v, Deliver(m, data)); }
  }

  lemma SameSize(s: System, m: Message, data: bool)
    requires AssertsHold(s, m) && m in s.net
    ensures Total(DeliverTo(s, m, data)) == Total(s) && DeliverTo(s, m, data).caches == s.caches
    ensures DeliverTo(s, m, data).migrate == s.migrate
  {
    StepMode(s, Deliver(m, data));
  }

  /** The work left in a state bounds the number of deliveries that can follow. */
  lemma {:induction false} WorkBounds(states: seq<System>, msgs: seq<Message>, data: seq<bool>, v: View, k: nat)
    returns (v': View)
    requires Deliveries(states, msgs, data) && Inv(states[0], v) && k <= |msgs|
    ensures Inv(states[k], v') && Total(states[k]) == Total(states[0]) && states[k].caches == states[0].caches
    ensures Rank(v', Total(states[0]), states[0].caches) + k <= Rank(v, Total(states[0]), states[0].caches)
  {
    hide Inv, Rank, DeliverTo, AssertsHold, Orderly, Mistaken, Clean, Keeping;
    if k == 0 { v' := v; }
    else {
      var u := WorkBounds(states, msgs, data, v, k - 1);
      DeliveryClean(states[k - 1], u, msgs[k - 1], data[k - 1]);
      v' := CleanFalls(states[k - 1], u, msgs[k - 1], data[k - 1]);
    }
  }

  /** From any reachable state only so many messages can be delivered before new transactions are needed. */
  lemma DeliveriesEnd(s: System) returns (bound: nat)
    requires Reachable(s)
    ensures forall states: seq<System>, msgs: seq<Message>, data: seq<bool> ::
              Deliveries(states, msgs, data) && states[0] == s ==> |msgs| <= bound
  {
    var v := Explained(s);
    bound := Rank(v, Total(s), s.caches);
    forall states: seq<System>, msgs: seq<Message>, data: seq<bool> | Deliveries(states, msgs, data) && states[0] == s
      ensures |msgs| <= bound
    {
      var _ := WorkBounds(states, msgs, data, v, |msgs|);
    }
  }

  lemma OrderlyNext(s: System, a: Action)
    requires OrderlyReachable(s) && Enabled(s, a) && Safe(s, a) && Orderly(s, a)
    ensures OrderlyReachable(Apply(s, a))
  {
    hide Enabled, Safe, Apply, Orderly;
    var states: seq<System>, actions: seq<Action> :|
      IsRun(states, actions) && states[|actions|] == s && OrderlyTo(states, actions, |actions|);
    var t, b := states + [Apply(s, a)], actions + [a];
    assert IsRun(t, b);
    forall i | 0 <= i < |b| ensures Orderly(t[i], b[i]) {
      if i < |actions| { assert Orderly(states[i], actions[i]) && t[i] == states[i]; }
    }
    assert OrderlyTo(t, b, |b|);
  }

  /** Deliveries that take up no request for a line in service. */
  ghost predicate OrderlyDeliveries(states: seq<System>, msgs: seq<Message>, data: seq<bool>)
  {
    Deliveries(states, msgs, data) && forall i :: 0 <= i < |msgs| ==> Orderly(states[i], Deliver(msgs[i], data[i]))
  }

  /** A message that can be delivered in order: one that opens no service, or any if nothing is in service. */
  lemma OrderlyChoice(s: System, v: View) returns (m: Message)
    requires Inv(s, v) && s.net != multiset{}
    ensures m in s.net && Orderly(s, Deliver(m, true))
  {
    hide Inv, Live;
    if k: Message :| k in s.net && !Opens(s, k) {
      m := k;
    } else {
      m :| m in s.net;
      forall k: Message ensures !Live(s, k) { NothingLive(s, v, k); }
    }
  }

  lemma NothingLive(s: System, v: View, m: Message)
    requires Inv(s, v) && forall k: Message :: k in s.net ==> Opens(s, k)
    ensures !Live(s, m)
  {
    hide Inv;
    if d: Node :| d < |s.engines| && m in s.engines[d].queue {
      var q := EngineMover(s, v, d);
    }
  }

  /** Delivering messages one after the other in an orderly way empties the network. */
  lemma {:induction false} Drain(s: System, v: View) returns (states: seq<System>, msgs: seq<Message>, data: seq<bool>)
    requires OrderlyReachable(s) && Inv(s, v) && v.single
    ensures OrderlyDeliveries(states, msgs, data) && states[0] == s
    ensures states[|msgs|].net == multiset{} && OrderlyReachable(states[|msgs|]) && states[|msgs|].migrate == s.migrate
    decreases Rank(v, Total(s), s.caches)
  {
    hide Inv, Rank, OrderlyReachable, DeliverTo, AssertsHold, Orderly, Clean, Moves, Strands, Mistaken;
    if s.net == multiset{} {
      states, msgs, data := [s], [], [];
    } else {
      var m := OrderlyChoice(s, v);
      var a := Deliver(m, true);
      SingleClean(s, v, a);
      CleanUnmistaken(s, m);
      var v' := CleanFalls(s, v, m, true);
      SameSize(s, m, true);
      OrderlyNext(s, a);
      states, msgs, data := Drain(DeliverTo(s, m, true), v');
      states, msgs, data := [s] + states, [m] + msgs, [true] + data;
    }
  }

  lemma CleanUnmistaken(s: System, m: Message)
    requires Clean(s, Deliver(m, true))
    ensures !Mistaken(s, m)
  {
  }

  /**
   From every state reached by an orderly run, migration on or off, some orderly run of
   deliveries alone leaves no message, and then a transaction made so far has been
   served and woken if and only if its request is not parked.
   */
  lemma EverybodyServedOrParked(s: System) returns (states: seq<System>, msgs: seq<Message>, data: seq<bool>)
    requires OrderlyReachable(s)
    ensures OrderlyDeliveries(states, msgs, data) && states[0] == s
    ensures var t := states[|msgs|];
            && t.net == multiset{} && OrderlyReachable(t) && t.migrate == s.migrate
            && forall source: Node, line: Line :: source < Total(t) && line in t.requesters[source] ==>
                 (t.requesters[source][line].woken && t.requesters[source][line].unblocked <==> !Parked(t, source, line))
  {
    var v := ExplainedSingle(s);
    states, msgs, data := Drain(s, v);
    var t := states[|msgs|];
    var u := ExplainedSingle(t);
    hide OrderlyReachable, Reachable, OrderlyDeliveries, Deliveries, Parked;
    forall source: Node, line: Line | source < Total(t) && line in t.requesters[source]
      ensures t.requesters[source][line].woken && t.requesters[source][line].unblocked <==> !Parked(t, source, line)
    {
      QuietExactly(t, source, line);
    }
  }

  /** With migration off the fabric can, from every state, serve and wake every transaction made so far. */
  lemma EverybodyServed(s: System) returns (states: seq<System>, msgs: seq<Message>, data: seq<bool>)
    requires Reachable(s) && !s.migrate
    ensures Deliveries(states, msgs, data) && states[0] == s
    ensures var t := states[|msgs|];
            forall source: Node, line: Line :: source < Total(t) && line in t.requesters[source] ==>
              t.requesters[source][line].woken && t.requesters[source][line].unblocked
  {
    OffFlows(s);
    states, msgs, data := EverybodyServedOrParked(s);
    var t := states[|msgs|];
    var v := ExplainedSingle(t);
    OffFlows(t);
    hide Reachable, Deliveries, Flowing;
    forall source: Node, line: Line | source < Total(t) && line in t.requesters[source]
      ensures t.requesters[source][line].woken && t.requesters[source][line].unblocked
    {
      QuietMeansServed(t, source, line);
    }
  }

  /** When no message is left and nobody was left behind, every transaction has been served and woken. */
  lemma QuietMeansServed(s: System, source: Node, line: Line)
    requires Flowing(s) && s.net == multiset{} && source < Total(s) && line in s.requesters[source]
    ensures s.requesters[source][line].woken && s.requesters[source][line].unblocked
    ensures forall h: Node :: h < |s.homes| ==> s.homes[h].queue == []
  {
    hide Flowing;
    var v := ExplainedLively(s);
    QuietStage(s, v, (source, line));
    FlowingReachable(s);
    QuietIdle(s);
    forall h: Node | h < |s.homes| ensures s.homes[h].queue == [] { QueueProgress(s, h); }
  }

  lemma FlowingReachable(s: System)
    requires Flowing(s)
    ensures Reachable(s)
  {
  }

  lemma QuietStage(s: System, v: View, x: Key)
    requires Inv(s, v) && s.net == multiset{} && x in v.pending
    ensures v.pending[x].stage == if s.requesters[x.0][x.1].woken then Woken else Held
    ensures v.lively ==> s.requesters[x.0][x.1].woken
    ensures s.requesters[x.0][x.1].woken ==> s.requesters[x.0][x.1].unblocked
  {
    var p := v.pending[x];
    assert TransactionOk(s.requesters[x.0][x.1], p, v, Total(s));
    if p.stage != Woken && (v.lively || p.stage != Held) { var m := Mover(s, v, x); }
  }

  /** Its request is parked at a home. */
  ghost predicate Parked(s: System, source: Node, line: Line)
  {
    exists h: Node, m: Message :: h < |s.homes| && m in s.homes[h].queue && m.Req? && m.source == source && m.line == line
  }

  /**
   When no message is left, a transaction has been served and woken if and only if
   its request is not parked; with migration on it may be, at a home that is idle.
   */
  lemma QuietExactly(s: System, source: Node, line: Line)
    requires Reachable(s) && s.net == multiset{} && source < Total(s) && line in s.requesters[source]
    ensures s.requesters[source][line].woken && s.requesters[source][line].unblocked <==> !Parked(s, source, line)
    ensures forall h: Node :: h < |s.homes| ==> !s.homes[h].busy
  {
    hide Reachable;
    QuietIdle(s);
    var v := Explained(s);
    var x := (source, line);
    assert x in v.pending;
    QuietStage(s, v, x);
    if Parked(s, source, line) {
      var h: Node, m: Message :|
        h < |s.homes| && m in s.homes[h].queue && m.Req? && m.source == source && m.line == line;
      WaitingPending(s, v, m);
    }
    if v.pending[x].stage == Held {
      var p := v.pending[x];
      CopiesByStage(s, v, x);
      var q := Req(x.1, x.0, p.home, p.kind, false);
      assert q in s.homes[p.home].queue;
    }
  }

  /** Without messages every home is idle and every probe engine is at rest. */
  lemma QuietIdle(s: System)
    requires Reachable(s) && s.net == multiset{}
    ensures forall h: Node :: h < |s.homes| ==> !s.homes[h].busy
    ensures forall d: Node :: d < |s.engines| ==> !s.engines[d].busy && s.engines[d].queue == []
  {
    hide Reachable, Inv;
    var v := Explained(s);
    forall h: Node | h < |s.homes| ensures !s.homes[h].busy { HomeQuiet(s, v, h); }
    forall d: Node | d < |s.engines| ensures !s.engines[d].busy && s.engines[d].queue == [] {
      EngineQuiet(s, v, d);
    }
  }

  lemma HomeQuiet(s: System, v: View, h: Node)
    requires Inv(s, v) && h < |s.homes| && s.net == multiset{}
    ensures !s.homes[h].busy
  {
    if s.homes[h].busy {
      IdleHome(s, v, h);
      var m := ServiceMover(s, v, h);
    }
  }

  lemma EngineQuiet(s: System, v: View, d: Node)
    requires Reachable(s) && Inv(s, v) && d < |s.engines| && s.net == multiset{}
    ensures !s.engines[d].busy && s.engines[d].queue == []
  {
    if !s.engines[d].busy && s.engines[d].queue != [] { ProbeProgress(s, d); }
    if s.engines[d].busy {
      var h := Occupant(s, v, d);
      var m := OccupantMover(s, v, h, d);
    }
  }

  // ---------------------------------------------------------------- order at the home

  /** The request that a step parks at home h, if any. */
  function ParkedBy(s: System, a: Action, h: Node): seq<Message>
    requires h < |s.homes|
  {
    if a.Deliver? && a.msg.Req? && a.msg.home == h && s.homes[h].busy then [Label(a.msg, false)] else []
  }

  /** A re-notified request of home h that the step put on its way. */
  predicate Resent(s: System, s': System, h: Node, m: Message)
  {
    m.Req? && m.again && m.home == h && s'.net[m] > s.net[m]
  }

  ghost function ResentBy(s: System, s': System, h: Node): seq<Message>
  {
    if m: Message :| Resent(s, s', h, m) then [Label(m, false)] else []
  }

  /** The requests parked at home h during the first n steps, in order. */
  ghost function ParkedAll(states: seq<System>, actions: seq<Action>, h: Node, n: nat): seq<Message>
    requires |states| == |actions| + 1 && n <= |actions|
  {
    if n == 0 then []
    else ParkedAll(states, actions, h, n - 1)
         + if h < |states[n - 1].homes| then ParkedBy(states[n - 1], actions[n - 1], h) else []
  }

  /** The requests of home h notified again during the first n steps, in order. */
  ghost function Renotified(states: seq<System>, h: Node, n: nat): seq<Message>
    requires n < |states|
  {
    if n == 0 then [] else Renotified(states, h, n - 1) + ResentBy(states[n - 1], states[n], h)
  }

  /** First parked, first served again: those notified again, then those still parked, are those that were parked. */
  lemma {:induction false} HomeOrder(states: seq<System>, actions: seq<Action>, h: Node, n: nat)
    requires IsRun(states, actions) && n <= |actions| && h < |states[n].homes| && !states[0].migrate
    ensures h < |states[0].homes|
    ensures ParkedAll(states, actions, h, n) == Renotified(states, h, n) + states[n].homes[h].queue
  {
    hide Inv, Enabled, Safe, Apply, ParkedBy, ResentBy, Orderly, Strands, Mistaken;
    if n > 0 {
      var s, a := states[n - 1], actions[n - 1];
      MigrationOff(states, actions, n - 1);
      var v := RunInv(states, actions, n - 1);
      HomeOrderStep(s, v, a, h);
      HomeOrder(states, actions, h, n - 1);
      var before, parked, resent, after :=
        s.homes[h].queue, ParkedBy(s, a, h), ResentBy(s, states[n], h), states[n].homes[h].queue;
      var gone := Renotified(states, h, n - 1);
      assert (gone + before) + parked == gone + (before + parked) == gone + (resent + after) == (gone + resent) + after;
    }
  }

  /** The unblock of a home with parked requests. */
  predicate Frees(s: System, a: Action, h: Node)
  {
    a.Deliver? && a.msg.Unblock? && a.msg.home == h && h < |s.homes| && s.homes[h].queue != []
  }

  lemma HomeOrderStep(s: System, v: View, a: Action, h: Node)
    requires Inv(s, v) && !s.migrate && Enabled(s, a) && Safe(s, a) && h < |Apply(s, a).homes|
    ensures h < |s.homes|
    ensures s.homes[h].queue + ParkedBy(s, a, h) == ResentBy(s, Apply(s, a), h) + Apply(s, a).homes[h].queue
  {
    hide Inv, Apply, ParkedBy, Enabled, Safe, Resent, ResentBy;
    Promised(s, v);
    QueueAfter(s, a, h);
    if Frees(s, a, h) {
      HeadIsOwn(s, v, h);
      UnblockResends(s, a, h);
    } else {
      forall m: Message ensures !Resent(s, Apply(s, a), h, m) { NothingResent(s, v, a, h, m); }
      NoneResent(s, Apply(s, a), h);
    }
  }

  lemma NoneResent(s: System, s': System, h: Node)
    requires forall m: Message :: !Resent(s, s', h, m)
    ensures ResentBy(s, s', h) == []
  {
  }

  /** A step appends to a home's queue, takes its head away, or leaves it alone. */
  lemma QueueAfter(s: System, a: Action, h: Node)
    requires Enabled(s, a) && Safe(s, a) && h < |Apply(s, a).homes|
    ensures h < |s.homes|
    ensures Frees(s, a, h) ==> ParkedBy(s, a, h) == [] && Apply(s, a).homes[h].queue == s.homes[h].queue[1..]
    ensures !Frees(s, a, h) ==> Apply(s, a).homes[h].queue == s.homes[h].queue + ParkedBy(s, a, h)
  {
    hide OnProbe, OnLocalAck, OnEvicted, OnAck, ReleaseEngine, Fan, Label;
  }

  lemma UnblockResends(s: System, a: Action, h: Node)
    requires Frees(s, a, h) && Enabled(s, a) && Safe(s, a)
    requires s.homes[h].queue[0].Req? && s.homes[h].queue[0].home == h && !s.homes[h].queue[0].again
    requires s.homes[h].queue[0].line in s.owner && s.owner[s.homes[h].queue[0].line] == h
    ensures ResentBy(s, Apply(s, a), h) == [s.homes[h].queue[0]]
  {
    var r := s.homes[h].queue[0];
    assert Resent(s, Apply(s, a), h, Label(r, true));
    forall m: Message | Resent(s, Apply(s, a), h, m) ensures m == Label(r, true) {
    }
  }

  /** The messages a delivery sends. */
  function SentFor(s: System, m: Message, data: bool): multiset<Message>
    requires AssertsHold(s, m)
  {
    match m
    case Req(_, _, home, _, _) => OnReq(s.homes[home], Total(s), m).sent
    case Unblock(_, _, home) => OnUnblock(s.homes[home], s.owner).sent
    case Probe(_, _, _, dest, _, _) => OnProbe(s.engines[dest], s.caches, m).sent
    case DramAck(_, _, home) => OnLocalAck(s.engines[home], home, m, true).sent
    case CacheAck(_, _, _, dest, _) => OnLocalAck(s.engines[dest], dest, m, data).sent
    case Evict(_, _, _, dest) => OnEvicted(s.engines[dest], dest, m).sent
    case Ack(_, source, _, _, _) => OnAck(s.requesters[source], Total(s), m).sent
    case Store(_, _, _) => multiset{}
    case DramRead(line, source, home) => multiset{DramAck(line, source, home)}
    case CacheProbe(line, source, home, dest, kind) => multiset{CacheAck(line, source, home, dest, kind)}
  }

  lemma NetAfter(s: System, m: Message, data: bool)
    requires AssertsHold(s, m)
    ensures DeliverTo(s, m, data).net == s.net - multiset{m} + SentFor(s, m, data)
  {
    hide OnReq, OnUnblock, OnProbe, OnLocalAck, OnEvicted, OnAck;
  }

  lemma NoneSent(s: System, v: View, u: Message, data: bool, h: Node, m: Message)
    requires Inv(s, v) && v.still && AssertsHold(s, u) && m.Req? && m.again && m.home == h
    requires u.Unblock? ==> u.home != h || s.homes[u.home].queue == []
    ensures SentFor(s, u, data)[m] == 0
  {
    hide Inv, ReleaseEngine, OnLocalAck, OnEvicted;
    match u
    case Req(_, _, _, _, _) => FanCount(u, Total(s), m);
    case CacheAck(_, _, _, dest, _) => AnswerSends(s, v, dest, u, data, m);
    case DramAck(_, _, home) => AnswerSends(s, v, home, u, true, m);
    case Evict(_, _, _, dest) => EvictSends(s, v, dest, u, m);
    case Unblock(_, _, home) => if s.homes[home].queue != [] { HeadIsOwn(s, v, home); }
    case _ =>
  }

  lemma AnswerSends(s: System, v: View, d: Node, u: Message, data: bool, m: Message)
    requires Inv(s, v) && d < |s.engines| && m.Req? && (u.CacheAck? || u.DramAck?)
    ensures OnLocalAck(s.engines[d], d, u, data).sent[m] == 0
  {
    ReleaseSends(s, v, d, m);
    hide Inv, ReleaseEngine;
  }

  lemma EvictSends(s: System, v: View, d: Node, u: Message, m: Message)
    requires Inv(s, v) && d < |s.engines| && m.Req? && u.Evict?
    ensures OnEvicted(s.engines[d], d, u).sent[m] == 0
  {
    ReleaseSends(s, v, d, m);
    hide Inv, ReleaseEngine;
  }

  lemma ReleaseSends(s: System, v: View, d: Node, m: Message)
    requires Inv(s, v) && d < |s.engines| && m.Req?
    ensures forall e: Engine :: e.queue == s.engines[d].queue ==> ReleaseEngine(e).sent[m] == 0
  {
    if s.engines[d].queue != [] { HeadIsProbe(s, v, d); }
  }

  /** No other step puts a re-notified request on its way. */
  lemma NothingResent(s: System, v: View, a: Action, h: Node, m: Message)
    requires Inv(s, v) && v.still && Enabled(s, a) && Safe(s, a) && h < |s.homes| && !Frees(s, a, h)
    ensures !Resent(s, Apply(s, a), h, m)
  {
    hide Inv, SentFor, DeliverTo, AssertsHold;
    if a.Deliver? && m.Req? && m.again && m.home == h {
      NetAfter(s, a.msg, a.data);
      UnblockPlace(s, a.msg);
      NoneSent(s, v, a.msg, a.data, h, m);
    }
  }

  lemma UnblockPlace(s: System, u: Message)
    requires AssertsHold(s, u)
    ensures u.Unblock? ==> u.home < |s.homes|
  {
  }

  lemma HeadIsProbe(s: System, v: View, d: Node)
    requires Inv(s, v) && d < |s.engines| && s.engines[d].queue != []
    ensures s.engines[d].queue[0].Probe?
  {
    assert EngineCore(s.engines[d], v.serving, d);
    UnparkProbe(s.engines[d].queue, v.serving, d);
  }

  lemma HeadIsOwn(s: System, v: View, h: Node)
    requires Inv(s, v) && h < |s.homes| && s.homes[h].queue != []
    ensures s.homes[h].queue[0].Req? && s.homes[h].queue[0].home == h && !s.homes[h].queue[0].again
    ensures v.still ==> s.homes[h].queue[0].line in s.owner && s.owner[s.homes[h].queue[0].line] == h
  {
    IdleHome(s, v, h);
    FirstHeld(s.homes[h], v, h);
    assert Owners(s.owner, v, Total(s));
  }

  // ---------------------------------------------------------------- who is left behind

  /** A step makes a home busy, frees it, or leaves it as it was. */
  lemma BusyAfter(s: System, a: Action, h: Node)
    requires Enabled(s, a) && Safe(s, a) && h < |Apply(s, a).homes|
    ensures h < |s.homes|
    ensures Apply(s, a).homes[h].busy ==
            if a.Deliver? && a.msg.Req? && a.msg.home == h then true
            else if a.Deliver? && a.msg.Unblock? && a.msg.home == h then false
            else s.homes[h].busy
  {
    hide OnProbe, OnLocalAck, OnEvicted, OnAck, ReleaseEngine, Fan, Label, Migrated;
  }

  /** A re-notified request is on its way to home h. */
  ghost predicate Coming(s: System, h: Node)
  {
    exists m: Message :: m in s.net && m.Req? && m.home == h && m.again
  }

  /**
   A step leaves a home stuck that was not stuck before exactly when its unblock sends
   the first parked request to another node, others stay parked, and none is coming back.
   */
  lemma StuckExactly(s: System, a: Action, h: Node)
    requires Reachable(s) && Enabled(s, a) && Safe(s, a) && h < |s.homes| && h < |Apply(s, a).homes| && !Stuck(s, h)
    ensures Stuck(Apply(s, a), h) <==> a.Deliver? && Strands(s, a.msg) && a.msg.home == h && !Coming(s, h)
  {
    hide Reachable, Inv, AssertsHold, DeliverTo, StartAt, ResumeAt;
    BusyAfter(s, a, h);
    QueueAfter(s, a, h);
    var v := Explained(s);
    if a.Deliver? && a.msg.Unblock? && a.msg.home == h {
      UnblockComing(s, v, a.msg, a.data, h);
      StuckComing(s, h);
      StuckComing(Apply(s, a), h);
    } else if Stuck(Apply(s, a), h) {
      IdleQueue(s, a, h);
      var m: Message :| m in s.net && m.Req? && m.home == h && m.again;
      StillComing(s, a, h, m);
      assert false;
    }
  }

  lemma StuckComing(s: System, h: Node)
    requires h < |s.homes|
    ensures Stuck(s, h) <==> !s.homes[h].busy && s.homes[h].queue != [] && !Coming(s, h)
  {
  }

  lemma IdleQueue(s: System, a: Action, h: Node)
    requires h < |s.homes| && !s.homes[h].busy
    ensures ParkedBy(s, a, h) == []
  {
  }

  lemma StillComing(s: System, a: Action, h: Node, m: Message)
    requires Enabled(s, a) && Safe(s, a) && m in s.net && a != Deliver(m, true) && a != Deliver(m, false)
    ensures m in Apply(s, a).net
  {
    if a.Deliver? {
      hide DeliverTo, SentFor, AssertsHold;
      NetAfter(s, a.msg, a.data);
    }
  }

  lemma UnblockComing(s: System, v: View, u: Message, data: bool, h: Node)
    requires Inv(s, v) && Enabled(s, Deliver(u, data)) && AssertsHold(s, u) && u.Unblock? && u.home == h
    requires h < |s.homes|
    ensures s.homes[h].busy
    ensures |s.homes[h].queue| > 1 ==>
              (Coming(DeliverTo(s, u, data), h) <==> !Strands(s, u) || Coming(s, h))
  {
    NetAfter(s, u, data);
    hide DeliverTo;
    if |s.homes[h].queue| > 1 {
      HeadIsOwn(s, v, h);
      var s', r := DeliverTo(s, u, data), Requeued(s.homes[h].queue[0], s.owner);
      assert s'.net == s.net - multiset{u} + multiset{r};
      if Coming(s, h) {
        var m: Message :| m in s.net && m.Req? && m.home == h && m.again;
        assert m in s'.net;
      }
      if !Strands(s, u) { assert r in s'.net && r.home == h; }
    }
  }
}
