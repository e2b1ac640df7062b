/**
 The condition under which the counting of local answers is right.  An answer of
 DRAM is matched to the running probe by its line alone, so with migration on it can
 be counted for another request for the same line.  The accounts of all engines and
 sockets hold throughout a run if and only if that never happens.
 */
module FabricMistakes {
  import opened Requests
  import opened Wrappers
  import opened Fabric
  import opened FabricView
  import opened FabricRuns
  import opened FabricTheorems
  import opened FabricProgress

  // ---------------------------------------------------------------- the accounts

  /** Engine d counts the answers of one request: all local questions and answers at the socket are for it. */
  ghost predicate CountsFor(s: System, d: Node, source: Node, h: Node, kind: Kind)
    requires d < |s.engines|
  {
    var e := s.engines[d];
    && e.owed == AnswersOwed(s, e.line, source, h, d, kind)
    && (e.owed == 0 ==> Evict(e.line, source, h, d) in s.net)
    && forall m: Message :: m in s.net && (m.CacheProbe? || m.CacheAck?) && m.dest == d ==>
         m == CacheProbe(e.line, source, h, d, kind) || m == CacheAck(e.line, source, h, d, kind)
  }

  /** A busy engine counts for one request; at an idle one no cache is asked. */
  ghost predicate EngineAccount(s: System, d: Node)
    requires d < |s.engines|
  {
    if s.engines[d].busy then exists source: Node, h: Node, kind: Kind :: CountsFor(s, d, source, h, kind)
    else forall m: Message :: m in s.net && (m.CacheProbe? || m.CacheAck?) ==> m.dest != d
  }

  /** Socket d owes its acknowledgement, has it in flight, or is recorded. */
  predicate SocketShare(s: System, source: Node, line: Line, h: Node, d: Node)
    requires source < Total(s) && line in s.requesters[source] && d < |s.engines|
  {
    var t := s.requesters[source][line];
    && One(Unanswered(s, line, source, h, t.kind, d)) + One(AckFlying(s, line, source, h, d)) + One(d in t.bits) == 1
    && AcksFlying(s, line, source, h, d) <= 1
  }

  /** A request in service has one home that works for it alone, and every socket is accounted for once. */
  ghost predicate SocketAccount(s: System, source: Node, line: Line)
    requires source < Total(s) && line in s.requesters[source]
  {
    InService(s, source, line) ==>
      exists h: Node ::
        WorksFor(s, h, line, source) && forall d: Node :: d < |s.engines| ==> SocketShare(s, source, line, h, d)
  }

  ghost predicate Accounts(s: System)
  {
    && (forall d: Node :: d < |s.engines| ==> EngineAccount(s, d))
    && (forall source: Node, line: Line :: source < Total(s) && line in s.requesters[source] ==>
          SocketAccount(s, source, line))
  }

  lemma IdleEngine(s: System, v: View, d: Node)
    requires Inv(s, v) && d < |s.engines| && !s.engines[d].busy
    ensures EngineAccount(s, d)
  {
    forall m: Message | m in s.net && (m.CacheProbe? || m.CacheAck?) ensures m.dest != d {
      assert s.net[m] == Expected(v, m);
      assert EngineCore(s.engines[d], v.serving, d);
      assert m.dest == d ==> Occupies(v.serving, m.home, d);
    }
  }

  lemma AccountsHold(s: System)
    requires Reachable(s)
    ensures Accounts(s)
  {
    hide Reachable, Inv, InService, WorksFor, SocketShare, CountsFor;
    var v := Explained(s);
    forall d: Node | d < |s.engines| ensures EngineAccount(s, d) {
      if s.engines[d].busy { EngineAccounted(s, d); } else { IdleEngine(s, v, d); }
    }
    forall source: Node, line: Line | source < Total(s) && line in s.requesters[source]
      ensures SocketAccount(s, source, line)
    {
      if InService(s, source, line) { var h := SocketsAccounted(s, v, source, line); }
    }
  }

  lemma EngineAccounted(s: System, d: Node)
    requires Reachable(s) && d < |s.engines| && s.engines[d].busy
    ensures EngineAccount(s, d)
  {
    hide Reachable, AnswersOwed;
    var source, k, kind := EngineCounts(s, d);
    assert CountsFor(s, d, source, k, kind);
  }

  lemma SocketsAccounted(s: System, v: View, source: Node, line: Line) returns (h: Node)
    requires Inv(s, v) && source < Total(s) && line in s.requesters[source] && InService(s, source, line)
    ensures WorksFor(s, h, line, source) && forall d: Node :: d < |s.engines| ==> SocketShare(s, source, line, h, d)
  {
    hide Inv, InService, WorksFor, Unanswered, AcksFlying;
    h := ServingView(s, v, source, line);
    ServingWorks(s, v, (source, line));
    forall d: Node | d < |s.engines| ensures SocketShare(s, source, line, h, d) {
      SocketCase(s, v, source, line, h, d);
    }
  }

  // ---------------------------------------------------------------- a mistaken answer breaks them

  /** A mistaken answer leaves all questions to the caches of its socket, and their answers, in flight. */
  lemma CachesUntouched(s: System, v: View, m: Message, data: bool, q: Message)
    requires Inv(s, v) && m in s.net && Mistaken(s, m) && AssertsHold(s, m) && (q.CacheProbe? || q.CacheAck?)
    ensures DeliverTo(s, m, data).net[q] == s.net[q]
  {
    NetAfter(s, m, data);
    MistakenAt(s, m);
    if s.engines[m.home].queue != [] { HeadIsProbe(s, v, m.home); }
    NoQuestion(s.engines[m.home], m.home, m, q);
    hide DeliverTo, Inv, OnLocalAck, Mistaken, AssertsHold;
  }

  lemma NoQuestion(e: Engine, d: Node, m: Message, q: Message)
    requires m.DramAck? && (q.CacheProbe? || q.CacheAck?) && (e.queue != [] ==> e.queue[0].Probe?)
    ensures OnLocalAck(e, d, m, true).sent[q] == 0
  {
  }

  lemma MistakenEngine(s: System, m: Message, data: bool)
    requires Mistaken(s, m) && AssertsHold(s, m)
    ensures m.home < |DeliverTo(s, m, data).engines|
    ensures var e, e' := s.engines[m.home], DeliverTo(s, m, data).engines[m.home];
            if e'.busy then e'.owed == e.owed - 1 && e'.line == e.line else e.owed == 1
  {
  }

  lemma OwedToCaches(s: System, line: Line, source: Node, h: Node, d: Node, kind: Kind)
    requires h != d
    ensures AnswersOwed(s, line, source, h, d, kind) ==
            s.net[CacheProbe(line, source, h, d, kind)] + s.net[CacheAck(line, source, h, d, kind)]
  {
  }

  lemma MistakenBreaks(s: System, v: View, m: Message, data: bool)
    requires Inv(s, v) && m in s.net && Mistaken(s, m) && AssertsHold(s, m)
    ensures !Accounts(DeliverTo(s, m, data))
  {
    hide Inv, DeliverTo, AssertsHold, Mistaken, AnswersOwed;
    var h := MistakenTwice(s, v, m);
    MistakenEngine(s, m, data);
    var d, s' := m.home, DeliverTo(s, m, data);
    MistakenAt(s, m);
    OccupantCounts(s, v, h, d);
    var e, a := s.engines[d], v.serving[h];
    OwedToCaches(s, e.line, a.source, h, d, a.kind);
    OwedToCaches(s', e.line, a.source, h, d, a.kind);
    var p, q := CacheProbe(e.line, a.source, h, d, a.kind), CacheAck(e.line, a.source, h, d, a.kind);
    CachesUntouched(s, v, m, data, p);
    CachesUntouched(s, v, m, data, q);
    var r := if s.net[p] > 0 then p else q;
    assert e.owed > 0 ==> r in s'.net && r.dest == d;
    assert !EngineAccount(s', d);
  }

  lemma MistakenAt(s: System, m: Message)
    requires Mistaken(s, m)
    ensures m.DramAck? && m.home < |s.engines| && s.engines[m.home].busy && s.engines[m.home].line == m.line
  {
  }

  // ---------------------------------------------------------------- exactly

  lemma Prefix(states: seq<System>, actions: seq<Action>, n: nat)
    requires IsRun(states, actions) && n <= |actions| && UnmistakenTo(states, actions, n)
    ensures Reachable(states[n])
  {
    hide Enabled, Safe, Apply, Mistaken;
    var t, b := states[..n + 1], actions[..n];
    assert IsRun(t, b) && t[|b|] == states[n] && UnmistakenTo(t, b, |b|);
  }

  /** The accounts of all engines and sockets hold throughout a run if and only if no answer was counted wrongly. */
  lemma AccountsExactly(states: seq<System>, actions: seq<Action>)
    requires IsRun(states, actions)
    ensures (forall i :: 0 <= i <= |actions| ==> Accounts(states[i])) <==> UnmistakenTo(states, actions, |actions|)
  {
    hide Enabled, Safe, Apply, Accounts, Mistaken, Reachable;
    if UnmistakenTo(states, actions, |actions|) {
      forall i | 0 <= i <= |actions| ensures Accounts(states[i]) {
        Prefix(states, actions, i);
        AccountsHold(states[i]);
      }
    }
    if forall i :: 0 <= i <= |actions| ==> Accounts(states[i]) { NeverMistaken(states, actions, |actions|); }
  }

  lemma {:induction false} NeverMistaken(states: seq<System>, actions: seq<Action>, n: nat)
    requires IsRun(states, actions) && n <= |actions| && forall i :: 0 <= i <= |actions| ==> Accounts(states[i])
    ensures UnmistakenTo(states, actions, n)
  {
    hide Enabled, Inv, Accounts, Mistaken, AssertsHold, DeliverTo, StartAt, ResumeAt;
    if n > 0 {
      NeverMistaken(states, actions, n - 1);
      var v := RunInv(states, actions, n - 1);
      var s, a := states[n - 1], actions[n - 1];
      if a.Deliver? && Mistaken(s, a.msg) {
        Delivered(s, a);
        assert Accounts(states[n]);
        MistakenBreaks(s, v, a.msg, a.data);
      }
    }
  }

  lemma Delivered(s: System, a: Action)
    requires Enabled(s, a) && Safe(s, a) && a.Deliver?
    ensures a.msg in s.net && AssertsHold(s, a.msg) && Apply(s, a) == DeliverTo(s, a.msg, a.data)
  {
  }
}
