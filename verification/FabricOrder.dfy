/**
 What the fabric does in which order: parked probes are sent again first come, first
 served; a writer is woken by the store of its data; and a line moves when the node
 that owns it has answered a write, or when its dirty data is written back.
 */
module FabricOrder {
  import opened Requests
  import opened Wrappers
  import opened Fabric
  import opened FabricView
  import opened FabricEngine
  import opened FabricAnswers
  import opened FabricCollect
  import opened FabricHomes
  import opened FabricRuns
  import opened FabricTheorems
  import opened FabricProgress
  import opened FabricData

  // ---------------------------------------------------------------- the order of parked probes

  /** The probe that a step parks at socket d, if any. */
  function ProbeParkedBy(s: System, a: Action, d: Node): seq<Message>
    requires d < |s.engines|
  {
    if a.Deliver? && a.msg.Probe? && a.msg.dest == d && s.engines[d].busy then [Label(a.msg, false)] else []
  }

  /** A re-notified probe of socket d that the step put on its way. */
  predicate ProbeResent(s: System, s': System, d: Node, x: Message)
  {
    x.Probe? && x.again && x.dest == d && s'.net[x] > s.net[x]
  }

  ghost function ProbeResentBy(s: System, s': System, d: Node): seq<Message>
  {
    if x: Message :| ProbeResent(s, s', d, x) then [Label(x, false)] else []
  }

  /** The probes parked at socket d during the first n steps, in order. */
  ghost function ProbesParked(states: seq<System>, actions: seq<Action>, d: Node, n: nat): seq<Message>
    requires |states| == |actions| + 1 && n <= |actions|
  {
    if n == 0 then []
    else ProbesParked(states, actions, d, n - 1)
         + if d < |states[n - 1].engines| then ProbeParkedBy(states[n - 1], actions[n - 1], d) else []
  }

  /** The probes of socket d notified again during the first n steps, in order. */
  ghost function ProbesRenotified(states: seq<System>, d: Node, n: nat): seq<Message>
    requires n < |states|
  {
    if n == 0 then [] else ProbesRenotified(states, d, n - 1) + ProbeResentBy(states[n - 1], states[n], d)
  }

  /**
   In every unmistaken run, migration on or off: the probes a socket has sent again,
   then those still parked there, are those that were parked, in the same order.
   */
  lemma {:induction false} ProbeOrder(states: seq<System>, actions: seq<Action>, d: Node, n: nat)
    requires IsRun(states, actions) && n <= |actions| && UnmistakenTo(states, actions, n) && d < |states[n].engines|
    ensures d < |states[0].engines|
    ensures ProbesParked(states, actions, d, n) == ProbesRenotified(states, d, n) + states[n].engines[d].queue
  {
    hide Inv, Enabled, Safe, Apply, ProbeParkedBy, ProbeResentBy, Mistaken;
    if n > 0 {
      var s, a := states[n - 1], actions[n - 1];
      var v := RunInv(states, actions, n - 1);
      ProbeOrderStep(s, v, a, d);
      ProbeOrder(states, actions, d, n - 1);
      var before, parked, resent, after :=
        s.engines[d].queue, ProbeParkedBy(s, a, d), ProbeResentBy(s, states[n], d), states[n].engines[d].queue;
      var gone := ProbesRenotified(states, d, n - 1);
      assert (gone + before) + parked == gone + (before + parked) == gone + (resent + after) == (gone + resent) + after;
    }
  }

  /** The engine of socket d acknowledges and is released. */
  predicate Finishes(s: System, m: Message, data: bool, d: Node)
  {
    d < |s.engines| && Touches(m, d) && !m.Probe?
    && (m.Evict? || (IsLast(s.engines[d], m)
                     && !(s.engines[d].invalidating && Noted(s.engines[d], m, m.DramAck? || data).dirty)))
  }

  lemma ProbeOrderStep(s: System, v: View, a: Action, d: Node)
    requires Inv(s, v) && Enabled(s, a) && Safe(s, a) && d < |Apply(s, a).engines|
    ensures d < |s.engines|
    ensures s.engines[d].queue + ProbeParkedBy(s, a, d) == ProbeResentBy(s, Apply(s, a), d) + Apply(s, a).engines[d].queue
  {
    hide Inv, DeliverTo, StartAt, ResumeAt, AssertsHold, ProbeParkedBy, ProbeResentBy;
    if a.Deliver? {
      EngineSize(s, a.msg, a.data);
      EngineAfter(s, a.msg, a.data, d);
      DeliveryOrder(s, v, a.msg, a.data, d);
    } else {
      OutsideEngines(s, a);
      forall x: Message ensures !ProbeResent(s, Apply(s, a), d, x) { OutsideProbes(s, a, x); }
      NoProbeResent(s, Apply(s, a), d);
      NotParking(s, a, d);
    }
  }

  lemma NoProbeResent(s: System, s': System, d: Node)
    requires forall x: Message :: !ProbeResent(s, s', d, x)
    ensures ProbeResentBy(s, s', d) == []
  {
  }

  lemma NotParking(s: System, a: Action, d: Node)
    requires d < |s.engines| && !a.Deliver?
    ensures ProbeParkedBy(s, a, d) == []
  {
  }

  lemma DeliveryOrder(s: System, v: View, m: Message, data: bool, d: Node)
    requires Inv(s, v) && m in s.net && AssertsHold(s, m) && d < |s.engines|
    ensures s.engines[d].queue + ProbeParkedBy(s, Deliver(m, data), d) ==
            ProbeResentBy(s, DeliverTo(s, m, data), d) + EngineNext(s, m, data, d).queue
  {
    hide Inv, DeliverTo, AssertsHold, SentFor, EngineNext, Finishes, ProbeParkedBy, ProbeResentBy;
    NetAfter(s, m, data);
    QueueNext(s, m, data, d);
    var s', q := DeliverTo(s, m, data), s.engines[d].queue;
    forall x: Message | x.Probe? && x.again && x.dest == d
      ensures SentFor(s, m, data)[x] == One(Finishes(s, m, data, d) && q != [] && x == Label(q[0], true))
    {
      SentAgain(s, v, m, data, d, x);
    }
    hide Label;
    if Finishes(s, m, data, d) && q != [] {
      InQueue(s, v, d, q[0]);
      hide ParkedAt, Live;
      ResentFirst(s, s', m, data, d, q[0]);
    } else {
      NothingSent(s, s', m, data, d);
    }
  }

  lemma NothingSent(s: System, s': System, m: Message, data: bool, d: Node)
    requires AssertsHold(s, m) && s'.net == s.net - multiset{m} + SentFor(s, m, data)
    requires forall x: Message :: x.Probe? && x.again && x.dest == d ==> SentFor(s, m, data)[x] == 0
    ensures ProbeResentBy(s, s', d) == []
  {
    hide SentFor, AssertsHold;
    forall x: Message ensures !ProbeResent(s, s', d, x) {}
  }

  lemma OutsideProbes(s: System, a: Action, x: Message)
    requires Enabled(s, a) && !a.Deliver?
    ensures x.Probe? ==> Apply(s, a).net[x] == s.net[x]
  {
  }

  lemma ResentFirst(s: System, s': System, m: Message, data: bool, d: Node, p: Message)
    requires AssertsHold(s, m) && Finishes(s, m, data, d) && p.Probe? && !p.again && p.dest == d
    requires s'.net == s.net - multiset{m} + SentFor(s, m, data)
    requires forall x: Message :: x.Probe? && x.again && x.dest == d ==> SentFor(s, m, data)[x] == One(x == Label(p, true))
    ensures ProbeResentBy(s, s', d) == [p]
  {
    hide SentFor, AssertsHold;
    assert ProbeResent(s, s', d, Label(p, true));
    forall x: Message | ProbeResent(s, s', d, x) ensures x == Label(p, true) {
    }
  }

  /** A delivery appends to a socket's queue, takes its head away, or leaves it alone. */
  lemma QueueNext(s: System, m: Message, data: bool, d: Node)
    requires AssertsHold(s, m) && d < |s.engines|
    ensures var q, q' := s.engines[d].queue, EngineNext(s, m, data, d).queue;
            if Finishes(s, m, data, d) then
              q' == (if q == [] then [] else q[1..]) && ProbeParkedBy(s, Deliver(m, data), d) == []
            else q' == q + ProbeParkedBy(s, Deliver(m, data), d)
  {
    hide Label;
  }

  /** The only probe of socket d that a delivery sends again is the first one parked there. */
  lemma SentAgain(s: System, v: View, m: Message, data: bool, d: Node, x: Message)
    requires Inv(s, v) && AssertsHold(s, m) && d < |s.engines| && x.Probe? && x.again && x.dest == d
    ensures SentFor(s, m, data)[x] ==
            One(Finishes(s, m, data, d) && s.engines[d].queue != [] && x == Label(s.engines[d].queue[0], true))
  {
    hide Inv, AssertsHold, SentFor, Finishes, Label;
    if m.CacheAck? || m.DramAck? { AnswerSentAgain(s, v, m, data, d, x); }
    else if m.Evict? { EvictSentAgain(s, v, m, data, d, x); }
    else { OthersSendNone(s, v, m, data, d, x); }
  }

  lemma AnswerSentAgain(s: System, v: View, m: Message, data: bool, d: Node, x: Message)
    requires Inv(s, v) && AssertsHold(s, m) && d < |s.engines| && x.Probe? && x.again && x.dest == d
    requires m.CacheAck? || m.DramAck?
    ensures SentFor(s, m, data)[x] ==
            One(Finishes(s, m, data, d) && s.engines[d].queue != [] && x == Label(s.engines[d].queue[0], true))
  {
    AnswerAgain(s, v, m, m.DramAck? || data, ErrandOf(m).socket, x);
    hide Inv, OnLocalAck, Label, Noted, IsLast;
  }

  lemma EvictSentAgain(s: System, v: View, m: Message, data: bool, d: Node, x: Message)
    requires Inv(s, v) && AssertsHold(s, m) && d < |s.engines| && x.Probe? && x.again && x.dest == d && m.Evict?
    ensures SentFor(s, m, data)[x] ==
            One(Finishes(s, m, data, d) && s.engines[d].queue != [] && x == Label(s.engines[d].queue[0], true))
  {
    ReleaseAgain(s, v, s.engines[m.dest], m.dest, x);
    hide Inv, ReleaseEngine, Label;
  }

  lemma OthersSendNone(s: System, v: View, m: Message, data: bool, d: Node, x: Message)
    requires Inv(s, v) && AssertsHold(s, m) && x.Probe? && x.again && !m.CacheAck? && !m.DramAck? && !m.Evict?
    ensures SentFor(s, m, data)[x] == 0 && !Finishes(s, m, data, d)
  {
    hide Inv, OnReq, OnUnblock, OnProbe, OnAck, Noted, IsLast;
    if m.Req? { OpenAgain(s, m, x); }
    else if m.Unblock? { UnblockAgain(s, v, m.home, x); }
    else if m.Probe? { AskAgain(s.engines[m.dest], s.caches, m, x); }
    else if m.Ack? { LeaveAgain(s.requesters[m.source], Total(s), m, x); }
  }

  lemma OpenAgain(s: System, m: Message, x: Message)
    requires AssertsHold(s, m) && m.Req? && x.Probe? && x.again
    ensures OnReq(s.homes[m.home], Total(s), m).sent[x] == 0
  {
    FanCount(m, Total(s), x);
    hide Fan;
  }

  lemma AskAgain(e: Engine, caches: nat, m: Message, x: Message)
    requires m.Probe? && x.Probe?
    ensures OnProbe(e, caches, m).sent[x] == 0
  {
  }

  lemma LeaveAgain(w: Requester, total: nat, m: Message, x: Message)
    requires m.Ack? && m.line in w && x.Probe?
    ensures OnAck(w, total, m).sent[x] == 0
  {
  }

  lemma UnblockAgain(s: System, v: View, home: Node, x: Message)
    requires Inv(s, v) && home < |s.homes| && x.Probe?
    ensures OnUnblock(s.homes[home], s.owner).sent[x] == 0
  {
    hide Inv;
    if s.homes[home].queue != [] { HeadIsOwn(s, v, home); }
  }

  lemma ReleaseAgain(s: System, v: View, e: Engine, o: Node, x: Message)
    requires Inv(s, v) && o < |s.engines| && e.queue == s.engines[o].queue && x.Probe? && x.again
    ensures ReleaseEngine(e).sent[x] == One(x.dest == o && e.queue != [] && x == Label(e.queue[0], true))
  {
    hide Inv;
    if e.queue != [] { InQueue(s, v, o, e.queue[0]); }
  }

  lemma AnswerAgain(s: System, v: View, m: Message, data: bool, o: Node, x: Message)
    requires Inv(s, v) && (m.CacheAck? || m.DramAck?) && o < |s.engines| && x.Probe? && x.again
    ensures var e := s.engines[o];
            OnLocalAck(e, o, m, data).sent[x] ==
            One(IsLast(e, m) && !(e.invalidating && Noted(e, m, data).dirty)
                && x.dest == o && e.queue != [] && x == Label(e.queue[0], true))
  {
    hide Inv;
    ReleaseAgain(s, v, Noted(s.engines[o], m, data), o, x);
    hide ReleaseEngine, Label;
  }

  // ---------------------------------------------------------------- the order of parked requests, lines moving

  /** The step sends x. */
  predicate Sends(s: System, s': System, x: Message) { s'.net[x] > s.net[x] }

  /** A re-notified request that the unblock of home h sent, to wherever. */
  predicate RequestResent(s: System, s': System, a: Action, h: Node, x: Message)
  {
    a.Deliver? && a.msg.Unblock? && a.msg.home == h && x.Req? && x.again && Sends(s, s', x)
  }

  /** It, as it was parked. */
  ghost function RequestResentBy(s: System, s': System, a: Action, h: Node): seq<Message>
  {
    if x: Message :| RequestResent(s, s', a, h, x) then [Req(x.line, x.source, h, x.kind, false)] else []
  }

  ghost function RequestsResent(states: seq<System>, actions: seq<Action>, h: Node, n: nat): seq<Message>
    requires |states| == |actions| + 1 && n <= |actions|
  {
    if n == 0 then []
    else RequestsResent(states, actions, h, n - 1) + RequestResentBy(states[n - 1], states[n], actions[n - 1], h)
  }

  /**
   In every unmistaken run, migration on or off: the requests that home h has sent away
   again, then those still parked there, are those that were parked, in the same order.
   */
  lemma {:induction false} RequestOrder(states: seq<System>, actions: seq<Action>, h: Node, n: nat)
    requires IsRun(states, actions) && n <= |actions| && UnmistakenTo(states, actions, n) && h < |states[n].homes|
    ensures h < |states[0].homes|
    ensures ParkedAll(states, actions, h, n) == RequestsResent(states, actions, h, n) + states[n].homes[h].queue
  {
    hide Inv, Enabled, Safe, Apply, ParkedBy, RequestResentBy, Mistaken;
    if n > 0 {
      var s, a := states[n - 1], actions[n - 1];
      var v := RunInv(states, actions, n - 1);
      RequestOrderStep(s, v, a, h);
      RequestOrder(states, actions, h, n - 1);
      var before, parked, resent, after :=
        s.homes[h].queue, ParkedBy(s, a, h), RequestResentBy(s, states[n], a, h), states[n].homes[h].queue;
      var gone := RequestsResent(states, actions, h, n - 1);
      assert (gone + before) + parked == gone + (before + parked) == gone + (resent + after) == (gone + resent) + after;
    }
  }

  lemma RequestOrderStep(s: System, v: View, a: Action, h: Node)
    requires Inv(s, v) && Enabled(s, a) && Safe(s, a) && h < |Apply(s, a).homes|
    ensures h < |s.homes|
    ensures s.homes[h].queue + ParkedBy(s, a, h) == RequestResentBy(s, Apply(s, a), a, h) + Apply(s, a).homes[h].queue
  {
    hide Inv, Apply, ParkedBy, Enabled, Safe, RequestResentBy;
    QueueAfter(s, a, h);
    if a.Deliver? && a.msg.Unblock? && a.msg.home == h {
      if s.homes[h].queue != [] { HeadIsOwn(s, v, h); }
      UnblockSendsHead(s, a, h);
    } else {
      NothingSentAway(s, Apply(s, a), a, h);
    }
  }

  lemma NothingSentAway(s: System, s': System, a: Action, h: Node)
    requires !(a.Deliver? && a.msg.Unblock? && a.msg.home == h)
    ensures RequestResentBy(s, s', a, h) == []
  {
  }

  lemma UnblockSendsHead(s: System, a: Action, h: Node)
    requires Enabled(s, a) && Safe(s, a) && a.Deliver? && a.msg.Unblock? && a.msg.home == h && h < |s.homes|
    requires var q := s.homes[h].queue; q != [] ==> q[0].Req? && q[0].home == h && !q[0].again
    ensures var q := s.homes[h].queue; RequestResentBy(s, Apply(s, a), a, h) == if q == [] then [] else [q[0]]
  {
    var s', q := Apply(s, a), s.homes[h].queue;
    if q != [] {
      var r := Requeued(q[0], s.owner);
      assert RequestResent(s, s', a, h, r);
      forall x: Message | RequestResent(s, s', a, h, x) ensures x == r {}
    } else {
      forall x: Message ensures !RequestResent(s, s', a, h, x) {}
    }
  }

  /** A request sent away again goes to the node that owns its line. */
  lemma SentToOwner(s: System, a: Action, x: Message)
    requires Reachable(s) && Enabled(s, a) && Safe(s, a) && x.Req? && x.again && Sends(s, Apply(s, a), x)
    ensures x.line in s.owner && x.home == s.owner[x.line]
  {
    hide Reachable, Inv, DeliverTo, StartAt, ResumeAt, AssertsHold;
    var v := Explained(s);
    match a
    case Deliver(m, data) => AgainToOwner(s, v, m, data, x);
    case _ => OutsideRequests(s, a, x);
  }

  lemma OutsideRequests(s: System, a: Action, x: Message)
    requires Enabled(s, a) && !a.Deliver? && x.Req? && x.again
    ensures Apply(s, a).net[x] == s.net[x]
  {
  }

  lemma AgainToOwner(s: System, v: View, m: Message, data: bool, x: Message)
    requires Inv(s, v) && m in s.net && AssertsHold(s, m) && x.Req? && x.again && Sends(s, DeliverTo(s, m, data), x)
    ensures x.line in s.owner && x.home == s.owner[x.line]
  {
    hide Inv, DeliverTo, SentFor, AssertsHold;
    NetAfter(s, m, data);
    assert x in SentFor(s, m, data);
    if m.Unblock? { HeadToOwner(s, v, m, data, x); } else { NoRequestSent(s, v, m, data, x); }
  }

  lemma HeadToOwner(s: System, v: View, m: Message, data: bool, x: Message)
    requires Inv(s, v) && AssertsHold(s, m) && m.Unblock? && x in SentFor(s, m, data)
    ensures x.Req? && x.line in s.owner && x.home == s.owner[x.line]
  {
    HeadIsOwn(s, v, m.home);
    hide Inv;
  }

  lemma NoRequestSent(s: System, v: View, m: Message, data: bool, x: Message)
    requires Inv(s, v) && AssertsHold(s, m) && !m.Unblock? && x.Req? && x.again
    ensures SentFor(s, m, data)[x] == 0
  {
    hide Inv, ReleaseEngine, OnLocalAck, OnEvicted;
    match m
    case Req(_, _, _, _, _) => FanCount(m, Total(s), x);
    case CacheAck(_, _, _, dest, _) => AnswerSends(s, v, dest, m, data, x);
    case DramAck(_, _, home) => AnswerSends(s, v, home, m, true, x);
    case Evict(_, _, _, dest) => EvictSends(s, v, dest, m, x);
    case _ =>
  }

  // ---------------------------------------------------------------- who is woken, and by what

  /** Step i delivers the store of what (source, line) writes. */
  predicate StoresAt(actions: seq<Action>, i: nat, source: Node, line: Line)
  {
    i < |actions| && actions[i].Deliver?
    && actions[i].msg.Store? && actions[i].msg.source == source && actions[i].msg.line == line
  }

  /** Step i starts a transaction of (source, line). */
  predicate StartsAt(actions: seq<Action>, i: nat, source: Node, line: Line)
  {
    i < |actions| && actions[i].Start? && actions[i].node == source && actions[i].line == line
  }

  /** The data of the transaction of (source, line) has been stored since it started. */
  ghost predicate StoredSince(actions: seq<Action>, n: nat, source: Node, line: Line)
  {
    exists i: nat :: i < n && StoresAt(actions, i, source, line)
                     && forall j: nat :: i <= j < n ==> !StartsAt(actions, j, source, line)
  }

  /** In every unmistaken run a write is woken if and only if its data has been stored. */
  lemma {:induction false} WriteStored(states: seq<System>, actions: seq<Action>, n: nat, source: Node, line: Line)
    requires IsRun(states, actions) && n <= |actions| && UnmistakenTo(states, actions, n)
    requires source < Total(states[n]) && line in states[n].requesters[source]
    requires states[n].requesters[source][line].kind.Write?
    ensures states[n].requesters[source][line].woken <==> StoredSince(actions, n, source, line)
  {
    hide Inv, Enabled, Safe, Apply, Mistaken;
    if n > 0 {
      var s, a := states[n - 1], actions[n - 1];
      var v := RunInv(states, actions, n - 1);
      WokenNext(s, v, a, source, line);
      StoredNext(actions, n - 1, source, line);
      hide StoredSince;
      if !StartsAt(actions, n - 1, source, line) { WriteStored(states, actions, n - 1, source, line); }
    }
  }

  lemma StoredNext(actions: seq<Action>, n: nat, source: Node, line: Line)
    requires n < |actions|
    ensures StoredSince(actions, n + 1, source, line) <==>
            StoresAt(actions, n, source, line)
            || (StoredSince(actions, n, source, line) && !StartsAt(actions, n, source, line))
  {
    if StoresAt(actions, n, source, line) { assert !StartsAt(actions, n, source, line); }
  }

  lemma WokenNext(s: System, v: View, a: Action, source: Node, line: Line)
    requires Inv(s, v) && Enabled(s, a) && Safe(s, a)
    requires source < Total(Apply(s, a)) && line in Apply(s, a).requesters[source]
    requires Apply(s, a).requesters[source][line].kind.Write?
    ensures source < Total(s)
    ensures var starts := a.Start? && a.node == source && a.line == line;
            && (starts ==> !Apply(s, a).requesters[source][line].woken)
            && (!starts ==> line in s.requesters[source] && s.requesters[source][line].kind.Write?
                            && (Apply(s, a).requesters[source][line].woken <==>
                                s.requesters[source][line].woken || StoresAt([a], 0, source, line)))
  {
    hide Inv, DeliverTo, StartAt, ResumeAt, AssertsHold;
    match a
    case Start(_, _, _) => OutsideWoken(s, a, source, line);
    case Resume(_, _) => OutsideWoken(s, a, source, line);
    case Deliver(m, data) => DeliveryWoken(s, v, m, data, source, line);
  }

  lemma OutsideWoken(s: System, a: Action, source: Node, line: Line)
    requires Enabled(s, a) && Safe(s, a) && !a.Deliver?
    requires source < Total(Apply(s, a)) && line in Apply(s, a).requesters[source]
    ensures source < Total(s)
    ensures var starts, t := a.Start? && a.node == source && a.line == line, Apply(s, a).requesters[source][line];
            if starts then !t.woken else line in s.requesters[source] && t == s.requesters[source][line]
  {
  }

  lemma DeliveryWoken(s: System, v: View, m: Message, data: bool, source: Node, line: Line)
    requires Inv(s, v) && m in s.net && AssertsHold(s, m)
    requires source < Total(DeliverTo(s, m, data)) && line in DeliverTo(s, m, data).requesters[source]
    ensures source < Total(s) && line in s.requesters[source]
    ensures var t, t' := s.requesters[source][line], DeliverTo(s, m, data).requesters[source][line];
            && t'.kind == t.kind
            && (t.kind.Write? ==> (t'.woken <==> t.woken || (m.Store? && m.source == source && m.line == line)))
  {
    hide Inv, DeliverTo, OnAck;
    RequestersAfter(s, m, data);
    if m.Ack? {
      InLive(s, m);
      Wanted(s, v, m);
      hide Live;
      AckSleeps(s.requesters[m.source], Total(s), m);
    }
  }

  /** An acknowledgement neither wakes a write nor changes another transaction. */
  lemma AckSleeps(w: Requester, total: nat, m: Message)
    requires m.Ack? && m.line in w && !w[m.line].woken
    ensures var w' := OnAck(w, total, m).state;
            && (forall l :: l in w' <==> l in w)
            && (forall l :: l in w ==> w'[l].kind == w[l].kind && (w[l].kind.Write? ==> w'[l].woken == w[l].woken))
  {
  }

  /** Step i delivers an acknowledgement of socket d to (source, line). */
  predicate AcksAt(actions: seq<Action>, i: nat, source: Node, line: Line, d: Node)
  {
    i < |actions| && actions[i].Deliver?
    && actions[i].msg.Ack? && actions[i].msg.source == source && actions[i].msg.line == line && actions[i].msg.origin == d
  }

  /** Step i delivers an acknowledgement with data to (source, line). */
  predicate DataAt(actions: seq<Action>, i: nat, source: Node, line: Line)
  {
    i < |actions| && actions[i].Deliver?
    && actions[i].msg.Ack? && actions[i].msg.source == source && actions[i].msg.line == line && actions[i].msg.data
  }

  ghost predicate AckedSince(actions: seq<Action>, n: nat, source: Node, line: Line, d: Node)
  {
    exists i: nat :: i < n && AcksAt(actions, i, source, line, d)
                     && forall j: nat :: i <= j < n ==> !StartsAt(actions, j, source, line)
  }

  ghost predicate DataSince(actions: seq<Action>, n: nat, source: Node, line: Line)
  {
    exists i: nat :: i < n && DataAt(actions, i, source, line)
                     && forall j: nat :: i <= j < n ==> !StartsAt(actions, j, source, line)
  }

  lemma AckedNext(actions: seq<Action>, n: nat, source: Node, line: Line, d: Node)
    requires n < |actions|
    ensures AckedSince(actions, n + 1, source, line, d) <==>
            AcksAt(actions, n, source, line, d)
            || (AckedSince(actions, n, source, line, d) && !StartsAt(actions, n, source, line))
    ensures DataSince(actions, n + 1, source, line) <==>
            DataAt(actions, n, source, line)
            || (DataSince(actions, n, source, line) && !StartsAt(actions, n, source, line))
  {
    if actions[n].Deliver? { assert !StartsAt(actions, n, source, line); }
  }

  /** What a step records in the transaction of (source, line). */
  lemma RecordNext(s: System, a: Action, source: Node, line: Line, d: Node)
    requires Enabled(s, a) && Safe(s, a)
    requires source < Total(Apply(s, a)) && line in Apply(s, a).requesters[source]
    ensures source < Total(s)
    ensures var starts, t := a.Start? && a.node == source && a.line == line, Apply(s, a).requesters[source][line];
            if starts then t.bits == {} && !t.answered
            else line in s.requesters[source]
                 && (d in t.bits <==> d in s.requesters[source][line].bits || AcksAt([a], 0, source, line, d))
                 && (t.answered <==> s.requesters[source][line].answered || DataAt([a], 0, source, line))
  {
    hide DeliverTo;
    if a.Deliver? {
      RequestersAfter(s, a.msg, a.data);
      if a.msg.Ack? {
        AckPlace(s, a.msg);
        AckRecords(s.requesters[a.msg.source], Total(s), a.msg);
      }
      hide OnAck;
    }
  }

  lemma AckPlace(s: System, m: Message)
    requires AssertsHold(s, m) && m.Ack?
    ensures m.source < |s.requesters| && m.line in s.requesters[m.source]
  {
  }

  lemma AckRecords(w: Requester, total: nat, m: Message)
    requires m.Ack? && m.line in w
    ensures var w' := OnAck(w, total, m).state;
            && m.line in w' && w'[m.line].bits == w[m.line].bits + {m.origin}
            && (w'[m.line].answered <==> w[m.line].answered || m.data)
            && forall l :: l != m.line ==> (l in w' <==> l in w) && (l in w ==> w'[l] == w[l])
  {
  }

  /**
   In every run a transaction has recorded a socket if and only if an acknowledgement of
   that socket has reached it since it started, and counts as answered if and only if one
   with data has.
   */
  lemma {:induction false} RecordedExactly(states: seq<System>, actions: seq<Action>, n: nat,
                                           source: Node, line: Line, d: Node)
    requires IsRun(states, actions) && n <= |actions|
    requires source < Total(states[n]) && line in states[n].requesters[source]
    ensures d in states[n].requesters[source][line].bits <==> AckedSince(actions, n, source, line, d)
    ensures states[n].requesters[source][line].answered <==> DataSince(actions, n, source, line)
  {
    hide Enabled, Safe, Apply;
    if n > 0 {
      RecordNext(states[n - 1], actions[n - 1], source, line, d);
      AckedNext(actions, n - 1, source, line, d);
      hide AckedSince, DataSince;
      if !StartsAt(actions, n - 1, source, line) { RecordedExactly(states, actions, n - 1, source, line, d); }
    }
  }

  /** A transaction's store is in flight, once, exactly while it is an unblocked write that sleeps; others wake at once. */
  lemma StoreOwed(s: System, source: Node, line: Line) returns (h: Node)
    requires Reachable(s) && source < Total(s) && line in s.requesters[source]
    ensures var t := s.requesters[source][line];
            && (t.unblocked <==> t.acks >= Total(s))
            && s.net[Store(line, source, h)] == One(t.kind.Write? && t.unblocked && !t.woken)
            && (forall k: Node :: k != h ==> s.net[Store(line, source, k)] == 0)
            && (!t.kind.Write? ==> (t.woken <==> t.unblocked))
  {
    hide Reachable;
    var v := Explained(s);
    var x, t := (source, line), s.requesters[source][line];
    assert x in v.pending && TransactionOk(t, v.pending[x], v, Total(s));
    h := v.pending[x].home;
    if t.unblocked { Cardinality(Nodes(Total(s)), t.bits); }
    forall k: Node ensures s.net[Store(line, source, k)] == One(k == h && t.kind.Write? && t.unblocked && !t.woken) {
      assert s.net[Store(line, source, k)] == Expected(v, Store(line, source, k));
    }
  }

  // ---------------------------------------------------------------- where a line moves

  /** The step sends the owner's acknowledgement of a write of another node's: d owns the line, source writes it. */
  predicate OwnerAcks(s: System, s': System, line: Line, source: Node, h: Node, d: Node, data: bool)
  {
    && Sends(s, s', Ack(line, source, h, d, data))
    && source < |s.requesters| && line in s.requesters[source] && s.requesters[source][line].kind.Write?
    && line in s.owner && s.owner[line] == d != source
  }

  /** The step starts to write the line back from socket d. */
  predicate WritesBack(s: System, s': System, line: Line, source: Node, h: Node, d: Node)
  {
    Sends(s, s', Evict(line, source, h, d))
  }

  /** The report that an answer makes its engine send, if it is the last one. */
  function Report(e: Engine, d: Node, m: Message, data: bool): Message
    requires m.CacheAck? || m.DramAck?
  {
    var e' := Noted(e, m, data);
    if e.invalidating && e'.dirty then Evict(m.line, m.source, m.home, d)
    else Ack(m.line, m.source, m.home, d, HasData(e'))
  }

  lemma ReportSent(s: System, v: View, m: Message, data: bool, d: Node, x: Message)
    requires Inv(s, v) && d < |s.engines| && (m.CacheAck? || m.DramAck?) && (x.Evict? || x.Ack?)
    ensures x in OnLocalAck(s.engines[d], d, m, data).sent <==>
            IsLast(s.engines[d], m) && x == Report(s.engines[d], d, m, data)
  {
    hide Inv;
    var e := s.engines[d];
    if e.queue != [] { InQueue(s, v, d, e.queue[0]); }
  }

  /** With an answer, the line moves to the writer or to where it is written back, and otherwise not at all. */
  lemma AnswerMoves(s: System, v: View, m: Message, data: bool, d: Node)
    requires Inv(s, v) && m in s.net && (m.CacheAck? || m.DramAck?) && !Mistaken(s, m)
    requires d == ErrandOf(m).socket && m.line in s.owner && (m.DramAck? ==> data)
    ensures d < |s.engines|
    ensures m.source < |s.requesters| && m.line in s.requesters[m.source]
    ensures var e, t := s.engines[d], s.requesters[m.source][m.line];
            Migrated(s.owner, e, d, m, data) ==
            if !IsLast(e, m) then s.owner
            else if Report(e, d, m, data).Evict? then s.owner[m.line := d]
            else if t.kind.Write? && s.owner[m.line] == d then s.owner[m.line := m.source]
            else s.owner
  {
    hide Inv, Mistaken, Works, EngineCore, ServiceOk;
    CountedWorks(s, v, m);
    InLive(s, m);
    Stands(s, v, m);
    Wanted(s, v, m);
    hide Live;
    if IsLast(s.engines[d], m) {
      WorkerSocket(s, v, m);
      assert s.owner[m.line := s.owner[m.line]] == s.owner;
    }
  }

  lemma Logged(s: System) returns (v: View, l: Log)
    requires Reachable(s)
    ensures Inv(s, v) && DataExact(s, l)
  {
    hide Inv, DataExact, UnmistakenTo;
    var states: seq<System>, actions: seq<Action> :|
      IsRun(states, actions) && states[|actions|] == s && UnmistakenTo(states, actions, |actions|);
    hide IsRun;
    RunLength(states, actions);
    RunData(states, actions, |actions|);
    v := RunInv(states, actions, |actions|);
    l := Heard(states, actions, |actions|);
  }

  /** The only report sent on anything but an answer is that of a write-back that is done. */
  lemma OthersMove(s: System, v: View, l: Log, m: Message, data: bool, x: Message)
    requires Inv(s, v) && DataExact(s, l) && m in s.net && AssertsHold(s, m) && !m.CacheAck? && !m.DramAck?
    requires x in SentFor(s, m, data) && (x.Evict? || x.Ack?)
    ensures m.Evict? && x.Ack? && x.line == m.line && x.source == m.source && Invalidates(s, x.source, x.line)
  {
    hide Inv, DataExact, AssertsHold, Invalidates, SentFor;
    if m.Req? { OpenedWhat(s, m, data, x); }
    else if m.Unblock? { UnblockSends(s, v, m, data, x); }
    else if m.Evict? {
      EvictSent(s, m, data, x);
      if s.engines[m.dest].queue != [] { InQueue(s, v, m.dest, s.engines[m.dest].queue[0]); }
      EvictLogged(s, v, l, m, data);
    } else if m.Ack? { SentByAck(s, m, data, x); }
    else { QuestionSends(s, m, data, x); }
  }

  lemma UnblockSends(s: System, v: View, m: Message, data: bool, x: Message)
    requires Inv(s, v) && AssertsHold(s, m) && m.Unblock? && x in SentFor(s, m, data)
    ensures x.Req?
  {
    hide Inv;
    if s.homes[m.home].queue != [] { HeadIsOwn(s, v, m.home); }
  }

  lemma QuestionSends(s: System, m: Message, data: bool, x: Message)
    requires AssertsHold(s, m) && (m.Probe? || m.DramRead? || m.CacheProbe? || m.Store?) && x in SentFor(s, m, data)
    ensures !x.Evict? && !x.Ack?
  {
  }

  lemma SendsReport(s: System, m: Message, data: bool, x: Message)
    requires AssertsHold(s, m) && (x.Evict? || x.Ack?) && m in s.net
    ensures x != m ==> (Sends(s, DeliverTo(s, m, data), x) <==> x in SentFor(s, m, data))
    ensures Sends(s, DeliverTo(s, m, data), x) ==> x in SentFor(s, m, data)
  {
    NetAfter(s, m, data);
    hide DeliverTo, SentFor, AssertsHold;
  }

  lemma AfterAnswer(s: System, m: Message, data: bool)
    requires AssertsHold(s, m) && (m.CacheAck? || m.DramAck?) && s.migrate
    ensures var d := ErrandOf(m).socket;
            && d < |s.engines|
            && DeliverTo(s, m, data).owner == Migrated(s.owner, s.engines[d], d, m, m.DramAck? || data)
            && SentFor(s, m, data) == OnLocalAck(s.engines[d], d, m, m.DramAck? || data).sent
  {
    hide OnLocalAck, Migrated;
  }

  lemma AfterOther(s: System, m: Message, data: bool)
    requires AssertsHold(s, m) && !m.CacheAck? && !m.DramAck?
    ensures DeliverTo(s, m, data).owner == s.owner
  {
  }

  /** The line moves in this step, or it is where it was and no report that moves it was sent. */
  ghost predicate MovesRight(s: System, s': System, line: Line)
  {
    && line in s.owner && line in s'.owner
    && (forall source: Node, h: Node, d: Node, data: bool :: OwnerAcks(s, s', line, source, h, d, data) ==>
          s'.owner[line] == source)
    && (forall source: Node, h: Node, d: Node :: WritesBack(s, s', line, source, h, d) ==> s'.owner[line] == d)
    && (s'.owner[line] != s.owner[line] ==>
          || (exists source: Node, h: Node, d: Node, data: bool :: OwnerAcks(s, s', line, source, h, d, data))
          || (exists source: Node, h: Node, d: Node :: WritesBack(s, s', line, source, h, d)))
  }

  /** The reports a step sends: r alone, if at all. */
  ghost predicate ReportsOnly(s: System, s': System, last: bool, r: Message)
  {
    forall x: Message :: x.Evict? || x.Ack? ==> (Sends(s, s', x) <==> last && x == r)
  }

  /** Where one report takes the line: to the node that writes it back, or to the writer from its owner. */
  function Taken(s: System, last: bool, r: Message): Directory
    requires (r.Evict? || r.Ack?) && r.source < |s.requesters| && r.line in s.requesters[r.source] && r.line in s.owner
  {
    if !last then s.owner
    else if r.Evict? then s.owner[r.line := r.dest]
    else if s.requesters[r.source][r.line].kind.Write? && s.owner[r.line] == r.origin then s.owner[r.line := r.source]
    else s.owner
  }

  lemma ReportMoves(s: System, s': System, last: bool, r: Message, line: Line)
    requires ReportsOnly(s, s', last, r) && (r.Evict? || r.Ack?) && line in s.owner
    requires r.source < |s.requesters| && r.line in s.requesters[r.source] && r.line in s.owner
    requires s'.owner == Taken(s, last, r)
    ensures MovesRight(s, s', line)
  {
    hide Sends;
    assert Sends(s, s', r) <==> last;
    if s'.owner[line] != s.owner[line] {
      if r.Evict? { assert WritesBack(s, s', line, r.source, r.home, r.dest); }
      else { assert OwnerAcks(s, s', line, r.source, r.home, r.origin, r.data); }
    }
  }

  lemma AnswerMovesRight(s: System, v: View, m: Message, data: bool, line: Line)
    requires Inv(s, v) && m in s.net && AssertsHold(s, m) && (m.CacheAck? || m.DramAck?) && !Mistaken(s, m)
    requires s.migrate && line in s.owner && m.line in s.owner
    ensures MovesRight(s, DeliverTo(s, m, data), line)
  {
    hide Inv, DeliverTo, Migrated, OnLocalAck, Mistaken, SentFor, AssertsHold, Sends, Report, IsLast, MovesRight;
    var s', d, b := DeliverTo(s, m, data), ErrandOf(m).socket, m.DramAck? || data;
    AfterAnswer(s, m, data);
    AnswerMoves(s, v, m, b, d);
    var r, last := Report(s.engines[d], d, m, b), IsLast(s.engines[d], m);
    ReportShape(s.engines[d], d, m, b);
    forall x: Message | x.Evict? || x.Ack? ensures Sends(s, s', x) <==> last && x == r {
      SendsReport(s, m, data, x);
      ReportSent(s, v, m, b, d, x);
    }
    ReportMoves(s, s', last, r, line);
  }

  lemma ReportShape(e: Engine, d: Node, m: Message, data: bool)
    requires m.CacheAck? || m.DramAck?
    ensures var r := Report(e, d, m, data);
            || (r.Evict? && r == Evict(m.line, m.source, m.home, d))
            || (r.Ack? && r == Ack(m.line, m.source, m.home, d, r.data))
  {
  }

  /**
   With migration on, an unmistaken step moves a line exactly when its owner acknowledges
   a write of another node, then to that node, or when a write-back of the line starts at
   a node that does not own it, then to that node.
   */
  lemma LineMoves(s: System, a: Action, line: Line)
    requires Reachable(s) && s.migrate && Enabled(s, a) && Safe(s, a) && !(a.Deliver? && Mistaken(s, a.msg))
    requires line in s.owner
    ensures MovesRight(s, Apply(s, a), line)
  {
    hide Reachable, Inv, DataExact, Mistaken, AssertsHold, DeliverTo, MovesRight, IsRun;
    if !a.Deliver? { OutsideMoves(s, a, line); }
    else {
      var v, l := Logged(s);
      if a.msg.CacheAck? || a.msg.DramAck? {
        KnownLine(s, v, a.msg);
        AnswerMovesRight(s, v, a.msg, a.data, line);
      } else {
        OtherMovesRight(s, v, l, a.msg, a.data, line);
      }
    }
  }

  lemma KnownLine(s: System, v: View, m: Message)
    requires Inv(s, v) && m in s.net && OnErrand(m)
    ensures m.line in s.owner
  {
    InLive(s, m);
    LiveServed(s, v, m);
    hide Live;
    assert Owners(s.owner, v, Total(s));
  }

  lemma OutsideMoves(s: System, a: Action, line: Line)
    requires Enabled(s, a) && Safe(s, a) && !a.Deliver? && line in s.owner
    ensures MovesRight(s, Apply(s, a), line)
  {
  }

  lemma OtherMovesRight(s: System, v: View, l: Log, m: Message, data: bool, line: Line)
    requires Inv(s, v) && DataExact(s, l) && m in s.net && AssertsHold(s, m) && !m.CacheAck? && !m.DramAck?
    requires line in s.owner
    ensures MovesRight(s, DeliverTo(s, m, data), line)
  {
    AfterOther(s, m, data);
    var s' := DeliverTo(s, m, data);
    hide Inv, DataExact, DeliverTo, SentFor, AssertsHold, Sends;
    forall x: Message | (x.Evict? || x.Ack?) && Sends(s, s', x)
      ensures x.Ack? && Invalidates(s, x.source, x.line)
    {
      SendsReport(s, m, data, x);
      OthersMove(s, v, l, m, data, x);
    }
    Unmoved(s, s', line);
  }

  /** A step that reports on invalidations at most and moves no line. */
  lemma Unmoved(s: System, s': System, line: Line)
    requires line in s.owner && s'.owner == s.owner
    requires forall x: Message :: (x.Evict? || x.Ack?) && Sends(s, s', x) ==> x.Ack? && Invalidates(s, x.source, x.line)
    ensures MovesRight(s, s', line)
  {
    hide Sends;
  }
}
