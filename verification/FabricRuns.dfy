/**
 The runs of the fabric: every interleaving of arriving transactions, deliveries
 and replies, from the idle system on.  The invariant holds in every unmistaken run,
 one in which no answer of DRAM is counted for a request it does not belong to.  A
 run is orderly if no home takes up a request for a line that is still being served;
 orderly runs are unmistaken, and with memory migration off every run is orderly.
 */
module FabricRuns {
  import opened Wrappers
  import opened Fabric
  import opened FabricRank
  import opened FabricView
  import opened FabricSteps
  import opened FabricEngine
  import opened FabricAnswers
  import opened FabricCollect
  import opened FabricHomes

  /** A run: the states passed through and the actions between them. */
  ghost predicate IsRun(states: seq<System>, actions: seq<Action>)
  {
    && |states| == |actions| + 1
    && Init(states[0])
    && forall i :: 0 <= i < |actions| ==>
         Enabled(states[i], actions[i]) && Safe(states[i], actions[i]) && states[i + 1] == Apply(states[i], actions[i])
  }

  /** m belongs to a request in service: it is in flight or parked at a probe engine. */
  ghost predicate Live(s: System, m: Message)
  {
    !m.Req? && !m.Store? && (m in s.net || exists d: Node :: d < |s.engines| && m in s.engines[d].queue)
  }

  /** A request is taken into service only if no other request for its line is in service. */
  ghost predicate Orderly(s: System, a: Action)
  {
    a.Deliver? && Opens(s, a.msg) ==> forall m: Message :: Live(s, m) ==> m.line != a.msg.line
  }

  ghost predicate UnmistakenTo(states: seq<System>, actions: seq<Action>, n: nat)
    requires n <= |actions| < |states|
  {
    forall i :: 0 <= i < n ==> !(actions[i].Deliver? && Mistaken(states[i], actions[i].msg))
  }

  ghost predicate OrderlyTo(states: seq<System>, actions: seq<Action>, n: nat)
    requires n <= |actions| < |states|
  {
    forall i :: 0 <= i < n ==> Orderly(states[i], actions[i])
  }

  /** No step of the run makes a home send a request away while others stay parked there. */
  ghost predicate NobodyStranded(states: seq<System>, actions: seq<Action>, n: nat)
    requires n <= |actions| < |states|
  {
    forall i :: 0 <= i < n ==> !(actions[i].Deliver? && Strands(states[i], actions[i].msg))
  }

  // ---------------------------------------------------------------- one step

  ghost predicate Admits(s: System, v: View, a: Action)
  {
    a.Deliver? ==> Admissible(s, v, a.msg, a.data)
  }

  lemma StepInv(s: System, v: View, a: Action) returns (v': View)
    requires Inv(s, v) && Enabled(s, a) && Admits(s, v, a)
    ensures Safe(s, a) && Inv(Apply(s, a), v') && SamePromises(v, v')
  {
    hide Inv, AssertsHold, DeliverTo, StartAt, ResumeAt, Admissible;
    match a
    case Start(node, line, kind) => v' := StartStep(s, v, node, line, kind);
    case Resume(node, line) => v' := ResumeStep(s, v, node, line);
    case Deliver(m, data) => v' := DeliverInv(s, v, m, data);
  }

  lemma DeliverInv(s: System, v: View, m: Message, data: bool) returns (v': View)
    requires Inv(s, v) && m in s.net && Admissible(s, v, m, data)
    ensures AssertsHold(s, m) && Inv(DeliverTo(s, m, data), v') && Falls(v, v', Total(s), s.caches)
  {
    hide Inv, AssertsHold, DeliverTo, Rank, Admissible;
    match m
    case Req(_, _, _, _, _) => v' := ReqStep(s, v, m, data);
    case Probe(_, _, _, _, _, _) => v' := ProbeStep(s, v, m, data);
    case DramRead(_, _, _) => v' := ReplyStep(s, v, m, data);
    case DramAck(_, _, _) => v' := AnswerStep(s, v, m, data);
    case CacheProbe(_, _, _, _, _) => v' := ReplyStep(s, v, m, data);
    case CacheAck(_, _, _, _, _) => v' := AnswerStep(s, v, m, data);
    case Evict(_, _, _, _) => v' := EvictStep(s, v, m, data);
    case Ack(_, _, _, _, _) => v' := FabricCollect.AckStep(s, v, m, data);
    case Unblock(_, _, _) => v' := UnblockStep(s, v, m, data);
    case Store(_, _, _) => v' := StoreStep(s, v, m, data);
  }

  // ---------------------------------------------------------------- services and their messages

  lemma LiveServed(s: System, v: View, m: Message)
    requires Inv(s, v) && Live(s, m)
    ensures Serves(v.serving, m.home, m.line, m.source)
  {
    if m in s.net {
      InFlight(s.net, v, m);
    } else {
      var d: Node :| d < |s.engines| && m in s.engines[d].queue;
      assert EngineCore(s.engines[d], v.serving, d);
      assert multiset(s.engines[d].queue)[m] == One(ParkedAt(v.serving, d, m));
    }
  }

  lemma OpenSocket(s: System, v: View, h: Node) returns (d: Node)
    requires Inv(s, v) && h in v.serving && !v.serving[h].done
    ensures d < |v.serving[h].sockets| == Total(s) == |s.engines| && v.serving[h].sockets[d] != Recorded
  {
    var a := v.serving[h];
    var x := (a.source, a.line);
    assert ServicesOk(v, Total(s)) && ServiceOk(a, h, Total(s));
    assert TransactionOk(s.requesters[x.0][x.1], v.pending[x], v, Total(s));
    var bits := s.requesters[x.0][x.1].bits;
    FullSet(bits, Total(s));
    d :| d < Total(s) && d !in bits;
  }

  /** The request that occupies an engine waits for an answer or a write-back that is in flight. */
  lemma OccupantMover(s: System, v: View, h: Node, d: Node) returns (m: Message)
    requires Inv(s, v) && d < |s.engines| && Occupies(v.serving, h, d)
    ensures m in s.net && !m.Req? && !m.Store? && m.home == h && Serves(v.serving, h, m.line, m.source)
  {
    hide Inv, Owners, ServicesOk, Transactions, Homes, Engines, Rest, ParkedExact, EarlyExact, EngineLive, Distinct;
    Parts(s, v);
    Focus(s, v, d);
    var a := v.serving[h];
    if a.sockets[d].Evicting? {
      m := Evict(a.line, a.source, h, d);
    } else if a.sockets[d].probes > 0 {
      m := CacheProbe(a.line, a.source, h, d, a.kind);
    } else if a.sockets[d].acks > 0 {
      m := CacheAck(a.line, a.source, h, d, a.kind);
    } else if a.dram == Reading {
      m := DramRead(a.line, a.source, h);
    } else {
      m := DramAck(a.line, a.source, h);
    }
    assert s.net[m] == Expected(v, m);
  }

  /** Every request in service has a message of its own in flight or parked. */
  lemma OwnMessage(s: System, v: View, h: Node) returns (m: Message)
    requires Inv(s, v) && h in v.serving
    ensures Live(s, m) && m.home == h && Serves(v.serving, h, m.line, m.source)
  {
    var a := v.serving[h];
    if a.done {
      m := Unblock(a.line, a.source, h);
      assert s.net[m] == Expected(v, m);
    } else {
      var d := OpenSocket(s, v, h);
      match a.sockets[d]
      case Fresh(again) =>
        m := Probe(a.line, a.source, h, d, a.kind, again);
        assert s.net[m] == Expected(v, m);
      case Queued =>
        m := Probe(a.line, a.source, h, d, a.kind, false);
        assert EngineCore(s.engines[d], v.serving, d);
        assert multiset(s.engines[d].queue)[m] == One(ParkedAt(v.serving, d, m));
      case Acked(data) =>
        m := Ack(a.line, a.source, h, d, data);
        assert s.net[m] == Expected(v, m);
      case _ => m := OccupantMover(s, v, h, d);
    }
  }

  lemma OrderlyApart(s: System, v: View, a: Action)
    requires Inv(s, v) && Orderly(s, a) && a.Deliver? && Opens(s, a.msg)
    ensures Apart(v.serving, a.msg.line)
  {
    hide Inv, Live;
    forall h: Node | h in v.serving ensures v.serving[h].line != a.msg.line {
      var m := OwnMessage(s, v, h);
    }
  }

  // ---------------------------------------------------------------- all runs

  /** The promises that survive a step. */
  ghost function Keeping(s: System, v: View, a: Action): View
  {
    if !a.Deliver? then v
    else v.(still := v.still && !Moves(s, a.msg, a.data), lively := v.lively && !Strands(s, a.msg),
            single := v.single && Orderly(s, a))
  }

  /** The step counts no answer wrongly and starts no probe on early data it does not want. */
  predicate Clean(s: System, a: Action)
  {
    a.Deliver? ==> !Mistaken(s, a.msg) && !Preempted(s, a.msg)
  }

  lemma PromisesOff(s: System, v: View, m: Message, data: bool)
    requires Inv(s, v) && !s.migrate
    ensures v.still && v.lively && v.single && !Moves(s, m, data) && !Strands(s, m)
  {
    if m.Unblock? && m.home < |s.homes| && s.homes[m.home].queue != [] {
      FirstHeld(s.homes[m.home], v, m.home);
    }
  }

  lemma KeepingAdmits(s: System, v: View, a: Action)
    requires Inv(s, v) && Enabled(s, a) && Clean(s, a)
    ensures Inv(s, Keeping(s, v, a)) && Admits(s, Keeping(s, v, a), a)
  {
    if a.Deliver? {
      if !s.migrate {
        OffOrderly(s, v, a);
        PromisesOff(s, v, a.msg, a.data);
      }
      hide Inv, Moves, Strands, Live, Opens, Mistaken, Preempted, Orderly;
      if Orderly(s, a) && Opens(s, a.msg) { OrderlyApart(s, v, a); }
      var w := Keeping(s, v, a);
      GiveUp(s, v, w.still, w.lively, w.single);
    }
  }

  lemma CleanInv(s: System, v: View, a: Action) returns (v': View)
    requires Inv(s, v) && Enabled(s, a) && Clean(s, a)
    ensures Safe(s, a) && Inv(Apply(s, a), v') && SamePromises(Keeping(s, v, a), v')
  {
    hide Inv, Enabled, Safe, Apply, Admits, Keeping, Clean;
    KeepingAdmits(s, v, a);
    v' := StepInv(s, Keeping(s, v, a), a);
  }

  /** A step that passes its assertions and is not mistaken is clean. */
  lemma SafeClean(s: System, a: Action)
    requires Safe(s, a) && !(a.Deliver? && Mistaken(s, a.msg))
    ensures Clean(s, a)
  {
  }

  lemma {:induction false} RunInv(states: seq<System>, actions: seq<Action>, n: nat) returns (v: View)
    requires IsRun(states, actions) && n <= |actions| && UnmistakenTo(states, actions, n)
    ensures Inv(states[n], v)
    ensures NobodyStranded(states, actions, n) ==> v.lively
    ensures OrderlyTo(states, actions, n) ==> v.single
  {
    hide Inv, Enabled, Safe, Apply, Orderly, Strands, Mistaken, Clean;
    if n == 0 {
      InitInv(states[0]);
      v := View(map[], map[], true, true, true);
    } else {
      var u := RunInv(states, actions, n - 1);
      SafeClean(states[n - 1], actions[n - 1]);
      v := CleanInv(states[n - 1], u, actions[n - 1]);
    }
  }

  /** While no line is served twice, no answer is counted wrongly and no probe finds early data it does not want. */
  lemma SingleClean(s: System, v: View, a: Action)
    requires Inv(s, v) && v.single && Enabled(s, a)
    ensures Clean(s, a)
  {
    if a.Deliver? && a.msg.DramAck? && Mistaken(s, a.msg) { var _ := MistakenTwice(s, v, a.msg); }
    if a.Deliver? && a.msg.Probe? && Preempted(s, a.msg) { PreemptedTwice(s, v, a.msg); }
  }

  lemma MistakenTwice(s: System, v: View, m: Message) returns (h: Node)
    requires Inv(s, v) && m in s.net && Mistaken(s, m)
    ensures m.home in v.serving && Occupies(v.serving, h, m.home) && h != m.home
    ensures v.serving[h].line == v.serving[m.home].line == m.line && !Occupies(v.serving, m.home, m.home)
    ensures s.engines[m.home].owed == 0 || v.serving[h].sockets[m.home].Probing?
  {
    hide Inv, NetExact, EngineLive, ParkedExact, EarlyExact;
    InNet(s, v, m);
    Focus(s, v, m.home);
    OwnSocket(s, v, m);
    h :| Occupies(v.serving, h, m.home);
  }

  lemma InNet(s: System, v: View, m: Message)
    requires Inv(s, v) && m in s.net && m.DramAck?
    ensures Serves(v.serving, m.home, m.line, m.source) && v.serving[m.home].kind.Read? && m.home < Total(s)
    ensures m.home < |v.serving[m.home].sockets| && v.serving[m.home].dram == Replied
  {
    InFlight(s.net, v, m);
    assert ServiceOk(v.serving[m.home], m.home, Total(s));
  }

  lemma PreemptedTwice(s: System, v: View, m: Message)
    requires Inv(s, v) && m in s.net && Preempted(s, m)
    ensures m.dest in v.serving && m.home in v.serving && m.dest != m.home
    ensures v.serving[m.dest].line == v.serving[m.home].line == m.line
  {
    InFlight(s.net, v, m);
    assert EngineCore(s.engines[m.dest], v.serving, m.dest);
    assert ServiceOk(v.serving[m.dest], m.dest, Total(s));
  }

  /** Orderly runs are unmistaken. */
  lemma {:induction false} OrderlyUnmistaken(states: seq<System>, actions: seq<Action>, n: nat)
    requires IsRun(states, actions) && n <= |actions| && OrderlyTo(states, actions, n)
    ensures UnmistakenTo(states, actions, n)
  {
    hide Inv, Enabled, Safe, Apply, Orderly, Strands, Mistaken, Preempted;
    if n > 0 {
      OrderlyUnmistaken(states, actions, n - 1);
      var v := RunInv(states, actions, n - 1);
      SingleClean(states[n - 1], v, actions[n - 1]);
    }
  }

  /** With migration off every run is orderly and nobody is stranded. */
  lemma {:induction false} MigrationOff(states: seq<System>, actions: seq<Action>, n: nat)
    requires IsRun(states, actions) && n <= |actions| && !states[0].migrate
    ensures !states[n].migrate && OrderlyTo(states, actions, n) && NobodyStranded(states, actions, n)
    ensures UnmistakenTo(states, actions, n)
  {
    hide Inv, Enabled, Safe, Apply, Orderly, Strands, Mistaken;
    if n > 0 {
      MigrationOff(states, actions, n - 1);
      var v := RunInv(states, actions, n - 1);
      var s, a := states[n - 1], actions[n - 1];
      OffOrderly(s, v, a);
      StepMode(s, a);
    }
    OrderlyUnmistaken(states, actions, n);
  }

  lemma OffOrderly(s: System, v: View, a: Action)
    requires Inv(s, v) && !s.migrate && Enabled(s, a)
    ensures Orderly(s, a) && !(a.Deliver? && Strands(s, a.msg)) && Clean(s, a)
  {
    hide Live, Moves, Strands, Clean;
    Promised(s, v);
    SingleClean(s, v, a);
    if a.Deliver? {
      PromisesOff(s, v, a.msg, a.data);
      if Opens(s, a.msg) {
        OwnHome(s, v, a.msg);
        forall m: Message | Live(s, m) ensures m.line != a.msg.line {
          LiveServed(s, v, m);
          ServedAtOwner(s, v, m.home);
          IdleHome(s, v, a.msg.home);
        }
      }
    }
  }

  lemma OwnHome(s: System, v: View, m: Message)
    requires Inv(s, v) && m in s.net && m.Req? && v.still
    ensures m.home < Total(s) && m.line in s.owner && s.owner[m.line] == m.home
  {
    InFlight(s.net, v, m);
    assert (m.source, m.line) in v.pending;
  }

  lemma ServedAtOwner(s: System, v: View, h: Node)
    requires Inv(s, v) && h in v.serving && v.still
    ensures v.serving[h].line in s.owner && s.owner[v.serving[h].line] == h
  {
  }

  /**
   After an unmistaken run, the next step passes every run-time assertion on its way
   if and only if it is not a probe without interest in DRAM that starts at an idle
   engine where DRAM has already answered for its line.
   */
  lemma NoAssertionFails(states: seq<System>, actions: seq<Action>, a: Action)
    requires IsRun(states, actions) && Enabled(states[|actions|], a) && UnmistakenTo(states, actions, |actions|)
    ensures Safe(states[|actions|], a) <==> !(a.Deliver? && Preempted(states[|actions|], a.msg))
  {
    hide Inv, Apply, Enabled, Orderly, Strands;
    var s := states[|actions|];
    var v := RunInv(states, actions, |actions|);
    EngineCount(s, v);
    if Clean(s, a) { var _ := CleanInv(s, v, a); }
  }

  /** In orderly runs, and so with migration off, no run-time assertion ever fails. */
  lemma OrderlySafe(states: seq<System>, actions: seq<Action>, a: Action)
    requires IsRun(states, actions) && Enabled(states[|actions|], a)
    requires states[0].migrate ==> OrderlyTo(states, actions, |actions|)
    ensures Safe(states[|actions|], a)
  {
    hide Inv, Safe, Apply, Enabled, Orderly, Strands, Mistaken, Clean;
    if !states[0].migrate { MigrationOff(states, actions, |actions|); }
    OrderlyUnmistaken(states, actions, |actions|);
    var v := RunInv(states, actions, |actions|);
    SingleClean(states[|actions|], v, a);
    var _ := CleanInv(states[|actions|], v, a);
  }

  lemma {:induction false} SameMode(states: seq<System>, actions: seq<Action>, n: nat)
    requires IsRun(states, actions) && n <= |actions|
    ensures states[n].migrate == states[0].migrate
  {
    hide Enabled, Safe;
    if n > 0 {
      SameMode(states, actions, n - 1);
      StepMode(states[n - 1], actions[n - 1]);
    }
  }

  lemma StepMode(s: System, a: Action)
    requires Enabled(s, a) && Safe(s, a)
    ensures Apply(s, a).migrate == s.migrate && Total(Apply(s, a)) == Total(s) && Apply(s, a).caches == s.caches
  {
    hide OnReq, OnUnblock, OnProbe, OnLocalAck, OnEvicted, OnAck, Migrated;
  }

  /** Reached by an unmistaken run; with migration off, by any run. */
  ghost predicate Reachable(s: System)
  {
    exists states: seq<System>, actions: seq<Action> ::
      IsRun(states, actions) && states[|actions|] == s && UnmistakenTo(states, actions, |actions|)
  }

  /** Reached by an unmistaken run in which no home left parked requests behind. */
  ghost predicate Flowing(s: System)
  {
    exists states: seq<System>, actions: seq<Action> ::
      && IsRun(states, actions) && states[|actions|] == s && UnmistakenTo(states, actions, |actions|)
      && NobodyStranded(states, actions, |actions|)
  }

  /** Reached by an orderly run. */
  ghost predicate OrderlyReachable(s: System)
  {
    exists states: seq<System>, actions: seq<Action> ::
      IsRun(states, actions) && states[|actions|] == s && OrderlyTo(states, actions, |actions|)
  }

  lemma Explained(s: System) returns (v: View)
    requires Reachable(s)
    ensures Inv(s, v) && (!s.migrate ==> v.still && v.lively && v.single)
  {
    hide Inv, Enabled, Safe, Apply, OrderlyTo, UnmistakenTo, NobodyStranded;
    var states: seq<System>, actions: seq<Action> :|
      IsRun(states, actions) && states[|actions|] == s && UnmistakenTo(states, actions, |actions|);
    v := RunInv(states, actions, |actions|);
    Promised(s, v);
  }

  lemma Promised(s: System, v: View)
    requires Inv(s, v)
    ensures !s.migrate ==> v.still && v.lively && v.single
  {
  }

  lemma ExplainedLively(s: System) returns (v: View)
    requires Flowing(s)
    ensures Inv(s, v) && v.lively
  {
    hide Inv, OrderlyTo, UnmistakenTo, NobodyStranded, Enabled, Safe, Apply;
    var states: seq<System>, actions: seq<Action> :|
      && IsRun(states, actions) && states[|actions|] == s && UnmistakenTo(states, actions, |actions|)
      && NobodyStranded(states, actions, |actions|);
    v := RunInv(states, actions, |actions|);
  }

  lemma ExplainedSingle(s: System) returns (v: View)
    requires OrderlyReachable(s)
    ensures Inv(s, v) && v.single && Reachable(s)
  {
    hide Inv, OrderlyTo, UnmistakenTo, NobodyStranded, Enabled, Safe, Apply;
    var states: seq<System>, actions: seq<Action> :|
      IsRun(states, actions) && states[|actions|] == s && OrderlyTo(states, actions, |actions|);
    OrderlyUnmistaken(states, actions, |actions|);
    v := RunInv(states, actions, |actions|);
  }

  /** Without migration nobody is left behind, and every run is orderly. */
  lemma OffFlows(s: System)
    requires Reachable(s) && !s.migrate
    ensures Flowing(s) && OrderlyReachable(s)
  {
    hide OrderlyTo, UnmistakenTo, NobodyStranded, Enabled, Safe, Apply;
    var states: seq<System>, actions: seq<Action> :|
      IsRun(states, actions) && states[|actions|] == s && UnmistakenTo(states, actions, |actions|);
    SameMode(states, actions, |actions|);
    MigrationOff(states, actions, |actions|);
  }
}
