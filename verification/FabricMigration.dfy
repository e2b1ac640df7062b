/**
 Memory migration in the fabric, by runs that go wrong.  A write moves its line to the
 writer before all sockets have answered.  If the new home then takes up a read of the
 line, the answer of its memory can be taken for an answer to the write, and a home can
 be freed while its request is still being served; or it comes early, and the write's
 probe stumbles over it.  Even in an orderly run a home that sends a parked request
 away does not notify the next one, which may then wait for ever.
 */
module FabricMigration {
  import opened Requests
  import opened Fabric
  import opened FabricView
  import opened FabricRuns
  import opened FabricTheorems
  import opened FabricProgress
  import opened FabricEffects

  /** What is asked of a run besides being one. */
  datatype Mode = AnyRun | Unmistaken | InOrder

  ghost predicate Keeps(mode: Mode, s: System, a: Action)
  {
    match mode
    case AnyRun => true
    case Unmistaken => !(a.Deliver? && Mistaken(s, a.msg))
    case InOrder => Orderly(s, a)
  }

  /** Some run of the given kind ends in s. */
  ghost predicate Ends(s: System, mode: Mode)
  {
    exists states: seq<System>, actions: seq<Action> ::
      && IsRun(states, actions) && states[|actions|] == s
      && forall i :: 0 <= i < |actions| ==> Keeps(mode, states[i], actions[i])
  }

  lemma Begins(s: System, mode: Mode)
    requires Init(s)
    ensures Ends(s, mode)
  {
    assert IsRun([s], []);
  }

  lemma Next(s: System, mode: Mode, a: Action, t: System)
    requires Ends(s, mode) && Leads(s, a, t) && Keeps(mode, s, a)
    ensures Ends(t, mode)
  {
    hide Enabled, Safe, Apply, Keeps;
    var states: seq<System>, actions: seq<Action> :|
      && IsRun(states, actions) && states[|actions|] == s
      && forall i :: 0 <= i < |actions| ==> Keeps(mode, states[i], actions[i]);
    var ts, b := states + [t], actions + [a];
    assert IsRun(ts, b);
    forall i | 0 <= i < |b| ensures Keeps(mode, ts[i], b[i]) {
      if i < |actions| { assert ts[i] == states[i] && b[i] == actions[i]; }
    }
  }

  /** A delivery that neither opens a service nor brings DRAM's answer is always in order. */
  lemma Goes(s: System, mode: Mode, m: Message, data: bool, t: System)
    requires Ends(s, mode) && Leads(s, Deliver(m, data), t) && !Opens(s, m) && (mode.Unmistaken? ==> !m.DramAck?)
    ensures Ends(t, mode)
  {
    hide Ends, Leads;
    Next(s, mode, Deliver(m, data), t);
  }

  lemma Starts(s: System, mode: Mode, node: Node, line: Line, kind: Kind)
    requires Ends(s, mode) && node < Total(s) && line !in s.requesters[node]
    ensures Ends(StartAt(s, node, line, kind), mode)
  {
    hide Ends, StartAt;
    Next(s, mode, Start(node, line, kind), StartAt(s, node, line, kind));
  }

  /** A request opens a service in order while nothing but requests and stores is in flight or parked at engines. */
  lemma OpensInOrder(s: System, mode: Mode, n: multiset<Message>, r: Message, t: System)
    requires Ends(s, mode) && s.net == n + multiset{r} && Leads(s, Deliver(r, true), t) && r.Req?
    requires mode.InOrder? ==> (forall m: Message :: m in n ==> m.Req? || m.Store?)
                               && forall d: Node :: d < |s.engines| ==> s.engines[d].queue == []
    ensures Ends(t, mode)
  {
    hide Ends, Leads;
    Next(s, mode, Deliver(r, true), t);
  }

  /** A probe, the cache's answer, and the acknowledgement, at a node other than a reader's home. */
  lemma Visited(s: System, mode: Mode, n: multiset<Message>, p: Message)
    requires Ends(s, mode) && Shaped(s) && s.net == n + multiset{p}
    requires p.Probe? && !p.kind.Invalidate? && !WantsDram(p)
    requires p.dest < |s.engines| && s.engines[p.dest] == Resting(s.engines[p.dest].line)
    ensures var q := CacheAck(p.line, p.source, p.home, p.dest, p.kind);
            Ends(s.(engines := s.engines[p.dest := Resting(p.line)],
                    owner := if s.migrate then Migrated(s.owner, Working(p.line, 1, false, false), p.dest, q, false)
                             else s.owner,
                    net := n + multiset{Ack(p.line, p.source, p.home, p.dest, false)}), mode)
  {
    hide Ends, Migrated, Leads;
    var q := CacheProbe(p.line, p.source, p.home, p.dest, p.kind);
    var a := CacheAck(p.line, p.source, p.home, p.dest, p.kind);
    var s1 := s.(engines := s.engines[p.dest := Working(p.line, 1, false, false)], net := n + multiset{q});
    Probed(s, n, p);
    Goes(s, mode, p, true, s1);
    var s2 := s1.(net := n + multiset{a});
    Replies(s1, n, q);
    Goes(s1, mode, q, true, s2);
    Finished(s2, n, a, p.dest, false, false);
    assert s2.engines[p.dest := Resting(p.line)] == s.engines[p.dest := Resting(p.line)];
    Goes(s2, mode, a, false, s2.(engines := s.engines[p.dest := Resting(p.line)],
                                 owner := if s.migrate then Migrated(s.owner, s2.engines[p.dest], p.dest, a, false)
                                          else s.owner,
                                 net := n + multiset{Ack(p.line, p.source, p.home, p.dest, false)}));
  }

  lemma RecordOver(w: Requester, line: Line, t: Transaction, u: Transaction)
    ensures Record(w[line := t], line, u) == w[line := u]
  {
  }

  function Only(line: Line, t: Transaction): Requester { map[line := t] }

  function Made(kind: Kind): Transaction { Transaction(kind, 0, {}, false, false, false) }

  /** The idle system with n nodes, one cache each, and migration on. */
  function Quiet(n: nat): System
  {
    System(1, true, seq(n, _ => map[]), seq(n, _ => Resting(0)), seq(n, _ => Home(false, [])), map[], multiset{})
  }

  lemma QuietEnds(n: nat, mode: Mode)
    requires n >= 1
    ensures Ends(Quiet(n), mode) && |Quiet(n).requesters| == |Quiet(n).engines| == |Quiet(n).homes| == n
  {
    Begins(Quiet(n), mode);
  }

  // ---------------------------------------------------------------- two services of one line

  /** Messages of a write of line l by node 1 at home 0, and of a read of it by node 2 at home 1. */
  function WriteReq(l: Line): Message { Req(l, 1, 0, Write, false) }
  function WriteProbe(l: Line, d: Node): Message { Probe(l, 1, 0, d, Write, false) }
  function WriteAck(l: Line, d: Node): Message { Ack(l, 1, 0, d, false) }
  function ReadReq(l: Line): Message { Req(l, 2, 1, Read, false) }
  function ReadProbe(l: Line, d: Node): Message { Probe(l, 2, 1, d, Read, false) }
  function ReadAck(l: Line, d: Node): Message { Ack(l, 2, 1, d, d == 1) }

  /** The first touch of the line, by node 0. */
  function FirstRead(l: Line): Message { Req(l, 0, 0, Read, false) }

  const FREE: Home := Home(false, [])
  const BUSY: Home := Home(true, [])

  /** Node 0 touches the line first, node 1 wants to write it. */
  function WriteAsked(l: Line): System
  {
    System(1, true,
           [map[l := Made(Read)], map[l := Made(Write)], map[]],
           [Resting(0), Resting(0), Resting(0)],
           [FREE, FREE, FREE],
           map[l := 0],
           multiset{FirstRead(l), WriteReq(l)})
  }

  lemma WriteAskedEnds(l: Line, mode: Mode)
    ensures Ends(WriteAsked(l), mode)
  {
    hide Ends, Leads;
    var s := Quiet(3);
    QuietEnds(3, mode);
    Starts(s, mode, 0, l, Read);
    s := StartAt(s, 0, l, Read);
    Starts(s, mode, 1, l, Write);
    s := StartAt(s, 1, l, Write);
    assert s == WriteAsked(l);
  }

  /** The write is in service. */
  function WriteOpened(l: Line): System
  {
    System(1, true,
           [map[l := Made(Read)], map[l := Made(Write)], map[]],
           [Resting(0), Resting(0), Resting(0)],
           [BUSY, FREE, FREE],
           map[l := 0],
           multiset{FirstRead(l), WriteProbe(l, 0), WriteProbe(l, 1), WriteProbe(l, 2)})
  }

  lemma WriteOpenedLeads(l: Line)
    ensures Leads(WriteAsked(l), Deliver(WriteReq(l), true), WriteOpened(l))
    ensures WriteAsked(l).net == multiset{FirstRead(l)} + multiset{WriteReq(l)}
  {
    hide Leads;
    OneOfFour(FirstRead(l), WriteProbe(l, 0), WriteProbe(l, 1), WriteProbe(l, 2));
    var s, n := WriteAsked(l), multiset{FirstRead(l)};
    assert s.net == n + multiset{WriteReq(l)};
    Opened(s, n, WriteReq(l));
    AskedThree(l);
    hide Asked;
    assert n + Asked(WriteReq(l), 3) == WriteOpened(l).net;
    assert s.homes[0 := BUSY] == WriteOpened(l).homes;
  }

  lemma WriteOpenedEnds(l: Line, mode: Mode)
    requires !mode.InOrder?
    ensures Ends(WriteOpened(l), mode)
  {
    WriteAskedEnds(l, mode);
    WriteOpenedLeads(l);
    hide Ends, Leads, WriteAsked, WriteOpened;
    OpensInOrder(WriteAsked(l), mode, multiset{FirstRead(l)}, WriteReq(l), WriteOpened(l));
  }

  lemma AskedThree(l: Line)
    ensures Asked(WriteReq(l), 3) == multiset{WriteProbe(l, 0), WriteProbe(l, 1), WriteProbe(l, 2)}
  {
    FanOf(WriteReq(l));
    hide Fan;
  }

  /** Node 1's own cache is being asked. */
  function WriteBegun(l: Line): System
  {
    System(1, true,
           [map[l := Made(Read)], map[l := Made(Write)], map[]],
           [Resting(0), Working(l, 1, false, false), Resting(0)],
           [BUSY, FREE, FREE],
           map[l := 0],
           multiset{FirstRead(l), WriteProbe(l, 0), WriteProbe(l, 2), CacheProbe(l, 1, 0, 1, Write)})
  }

  lemma WriteBegunEnds(l: Line)
    ensures Ends(WriteBegun(l), AnyRun)
  {
    hide Ends, Leads;
    OneOfFour(FirstRead(l), WriteProbe(l, 0), WriteProbe(l, 1), WriteProbe(l, 2));
    WriteOpenedEnds(l, AnyRun);
    var s, n := WriteOpened(l), multiset{FirstRead(l), WriteProbe(l, 0), WriteProbe(l, 2)};
    assert s.net == n + multiset{WriteProbe(l, 1)};
    Probed(s, n, WriteProbe(l, 1));
    assert s.engines[1 := Working(l, 1, false, false)] == WriteBegun(l).engines;
    assert n + multiset{CacheProbe(l, 1, 0, 1, Write)} == WriteBegun(l).net;
    Goes(s, AnyRun, WriteProbe(l, 1), true, WriteBegun(l));
  }

  /** In flight for the write and the first touch while the read is served. */
  function Others(l: Line): multiset<Message>
  {
    multiset{FirstRead(l), WriteProbe(l, 2), CacheProbe(l, 1, 0, 1, Write), WriteAck(l, 0)}
  }

  /** The owner's node has answered: the line moves to the writer. */
  function WriteMoved(l: Line): System
  {
    System(1, true,
           [map[l := Made(Read)], map[l := Made(Write)], map[]],
           [Resting(l), Working(l, 1, false, false), Resting(0)],
           [BUSY, FREE, FREE],
           map[l := 1],
           Others(l))
  }

  lemma WriteMovedEnds(l: Line)
    ensures Ends(WriteMoved(l), AnyRun)
  {
    hide Ends, Leads;
    WriteBegunEnds(l);
    var s := WriteBegun(l);
    var n := multiset{FirstRead(l), WriteProbe(l, 2), CacheProbe(l, 1, 0, 1, Write)};
    assert s.net == n + multiset{WriteProbe(l, 0)};
    Visited(s, AnyRun, n, WriteProbe(l, 0));
    assert map[l := 0][l := 1] == map[l := 1];
    assert Migrated(s.owner, Working(l, 1, false, false), 0, CacheAck(l, 1, 0, 0, Write), false) == map[l := 1];
    s := s.(engines := s.engines[0 := Resting(l)], owner := map[l := 1], net := n + multiset{WriteAck(l, 0)});
    assert s == WriteMoved(l);
  }

  /** The line's new home has taken up a read; the memory's answer was taken for the cache's answer to the write. */
  function Miscounted(l: Line): System
  {
    System(1, true,
           [map[l := Made(Read)], map[l := Made(Write)], map[l := Made(Read)]],
           [Resting(l), Resting(l), Resting(0)],
           [BUSY, BUSY, FREE],
           map[l := 1],
           Others(l) + multiset{ReadProbe(l, 0), ReadProbe(l, 1), ReadProbe(l, 2), ReadAck(l, 1)})
  }

  lemma MiscountedEnds(l: Line)
    ensures Ends(Miscounted(l), AnyRun)
  {
    hide Ends, Fan, Others, Leads;
    var u: System;
    WriteMovedEnds(l);
    var s := WriteMoved(l);
    Starts(s, AnyRun, 2, l, Read);
    s := StartAt(s, 2, l, Read);
    assert s.net == Others(l) + multiset{ReadReq(l)} && s.owner == map[l := 1];
    Opened(s, Others(l), ReadReq(l));
    FanOf(ReadReq(l));
    u := s.(homes := s.homes[1 := BUSY], net := Others(l) + Asked(ReadReq(l), 3));
    OpensInOrder(s, AnyRun, Others(l), ReadReq(l), u);
    s := u;
    var n := Others(l) + multiset{ReadProbe(l, 0), ReadProbe(l, 1), ReadProbe(l, 2)};
    assert s.net == n + multiset{DramRead(l, 2, 1)};
    Replies(s, n, DramRead(l, 2, 1));
    u := s.(net := n + multiset{DramAck(l, 2, 1)});
    Goes(s, AnyRun, DramRead(l, 2, 1), true, u);
    s := u;
    Finished(s, n, DramAck(l, 2, 1), 1, false, false);
    u := s.(engines := s.engines[1 := Resting(l)], net := n + multiset{ReadAck(l, 1)});
    Goes(s, AnyRun, DramAck(l, 2, 1), false, u);
    s := u;
    assert s.net == Others(l) + multiset{ReadProbe(l, 0), ReadProbe(l, 1), ReadProbe(l, 2), ReadAck(l, 1)};
    assert s == Miscounted(l);
  }

  /** Then the cache's own answer finds the engine at rest, and an assertion fails. */
  lemma AnswerRefused(l: Line) returns (s: System, m: Message)
    ensures Ends(s, AnyRun) && m in s.net && m.CacheAck? && !AssertsHold(s, m)
  {
    hide Ends, Leads;
    var u: System;
    MiscountedEnds(l);
    s := Miscounted(l);
    var q := CacheProbe(l, 1, 0, 1, Write);
    var n := s.net - multiset{q};
    assert s.net == n + multiset{q};
    Replies(s, n, q);
    m := CacheAck(l, 1, 0, 1, Write);
    u := s.(net := n + multiset{m});
    Goes(s, AnyRun, q, true, u);
    s := u;
  }

  // ---------------------------------------------------------------- a write that finds early data

  /** Node 1 owns the line by now, and no probe has reached it. */
  function MovedEarly(l: Line): System
  {
    System(1, true,
           [map[l := Made(Read)], map[l := Made(Write)], map[]],
           [Resting(l), Resting(0), Resting(0)],
           [BUSY, FREE, FREE],
           map[l := 1],
           multiset{FirstRead(l), WriteProbe(l, 1), WriteProbe(l, 2), WriteAck(l, 0)})
  }

  lemma MovedEarlyEnds(l: Line)
    ensures Ends(MovedEarly(l), Unmistaken)
  {
    hide Ends, Leads;
    OneOfFour(FirstRead(l), WriteProbe(l, 0), WriteProbe(l, 1), WriteProbe(l, 2));
    OneOfFour(FirstRead(l), WriteProbe(l, 1), WriteProbe(l, 2), WriteAck(l, 0));
    WriteOpenedEnds(l, Unmistaken);
    var s, n := WriteOpened(l), multiset{FirstRead(l), WriteProbe(l, 1), WriteProbe(l, 2)};
    assert s.net == n + multiset{WriteProbe(l, 0)};
    Visited(s, Unmistaken, n, WriteProbe(l, 0));
    LineMoves(l);
    hide Migrated;
    assert s.engines[0 := Resting(l)] == MovedEarly(l).engines;
    assert n + multiset{WriteAck(l, 0)} == MovedEarly(l).net;
  }

  lemma LineMoves(l: Line)
    ensures Migrated(map[l := 0], Working(l, 1, false, false), 0, CacheAck(l, 1, 0, 0, Write), false) == map[l := 1]
  {
    assert map[l := 0][l := 1] == map[l := 1];
  }

  /** No answer was mistaken, and yet the write's probe finds data in which it has no interest: an assertion fails. */
  lemma ProbeRefused(l: Line) returns (s: System, m: Message)
    ensures Reachable(s) && m in s.net && Preempted(s, m) && !AssertsHold(s, m)
  {
    hide Ends, Fan, Leads, Reachable;
    MovedEarlyEnds(l);
    s := MovedEarly(l);
    var o := s.net;
    Starts(s, Unmistaken, 2, l, Read);
    s := StartAt(s, 2, l, Read);
    Opened(s, o, ReadReq(l));
    FanOf(ReadReq(l));
    var u := s.(homes := s.homes[1 := BUSY], net := o + Asked(ReadReq(l), 3));
    OpensInOrder(s, Unmistaken, o, ReadReq(l), u);
    s := u;
    var n := o + multiset{ReadProbe(l, 0), ReadProbe(l, 1), ReadProbe(l, 2)};
    assert s.net == n + multiset{DramRead(l, 2, 1)};
    Replies(s, n, DramRead(l, 2, 1));
    u := s.(net := n + multiset{DramAck(l, 2, 1)});
    Goes(s, Unmistaken, DramRead(l, 2, 1), true, u);
    s := u;
    KeptEarly(s, n, DramAck(l, 2, 1));
    u := s.(engines := s.engines[1 := Resting(0).(early := map[l := DramAck(l, 2, 1)])], net := n);
    Next(s, Unmistaken, Deliver(DramAck(l, 2, 1), true), u);
    s := u;
    m := WriteProbe(l, 1);
    UnmistakenReachable(s);
  }

  lemma UnmistakenReachable(s: System)
    requires Ends(s, Unmistaken)
    ensures Reachable(s)
  {
    hide IsRun, Mistaken;
  }

  // ---------------------------------------------------------------- a home freed too early

  /** Two sockets more have answered the read, which has all its acknowledgements but not its own node's answer. */
  function Acknowledged(l: Line): System
  {
    System(1, true,
           [map[l := Made(Read)], map[l := Made(Write)], map[l := Made(Read)]],
           [Resting(l), Resting(l), Resting(l)],
           [BUSY, BUSY, FREE],
           map[l := 1],
           Others(l) + multiset{ReadProbe(l, 1), ReadAck(l, 0), ReadAck(l, 1), ReadAck(l, 2)})
  }

  lemma AcknowledgedEnds(l: Line)
    ensures Ends(Acknowledged(l), AnyRun)
  {
    hide Ends, Others, Leads;
    MiscountedEnds(l);
    var s := Miscounted(l);
    var o := Others(l) + multiset{ReadProbe(l, 1)};
    var n := o + multiset{ReadProbe(l, 2), ReadAck(l, 1)};
    assert s.net == n + multiset{ReadProbe(l, 0)};
    Visited(s, AnyRun, n, ReadProbe(l, 0));
    s := s.(engines := s.engines[0 := Resting(l)], net := n + multiset{ReadAck(l, 0)});
    n := o + multiset{ReadAck(l, 0), ReadAck(l, 1)};
    assert s.net == n + multiset{ReadProbe(l, 2)};
    Visited(s, AnyRun, n, ReadProbe(l, 2));
    s := s.(engines := s.engines[2 := Resting(l)], net := n + multiset{ReadAck(l, 2)});
    assert s.net == Acknowledged(l).net;
    assert s == Acknowledged(l);
  }

  /** The home of the read is freed while its own probe to itself is still on the way. */
  function Freed(l: Line): System
  {
    System(1, true,
           [map[l := Made(Read)], map[l := Made(Write)], map[l := Transaction(Read, 3, {0, 1, 2}, true, true, true)]],
           [Resting(l), Resting(l), Resting(l)],
           [BUSY, FREE, FREE],
           map[l := 1],
           Others(l) + multiset{ReadProbe(l, 1)})
  }

  lemma FreedEnds(l: Line)
    ensures Ends(Freed(l), AnyRun)
  {
    hide Ends, Record, Others, Leads;
    var u: System;
    AcknowledgedEnds(l);
    var s, o := Acknowledged(l), Others(l) + multiset{ReadProbe(l, 1)};
    var t0, t1, t2 := Made(Read), Transaction(Read, 1, {} + {0}, false, false, false),
                      Transaction(Read, 2, {} + {0} + {1}, true, false, false);
    var t3 := Transaction(Read, 3, {} + {0} + {1} + {2}, true, true, true);
    RecordOver(map[], l, t0, t1);
    RecordOver(map[], l, t1, t2);
    RecordOver(map[], l, t2, t3);
    var n := o + multiset{ReadAck(l, 1), ReadAck(l, 2)};
    assert s.net == n + multiset{ReadAck(l, 0)};
    AckTaken(s, n, ReadAck(l, 0));
    u := s.(requesters := s.requesters[2 := Only(l, t1)], net := n);
    Goes(s, AnyRun, ReadAck(l, 0), true, u);
    s := u;
    n := o + multiset{ReadAck(l, 2)};
    assert s.net == n + multiset{ReadAck(l, 1)};
    AckTaken(s, n, ReadAck(l, 1));
    u := s.(requesters := s.requesters[2 := Only(l, t2)], net := n);
    Goes(s, AnyRun, ReadAck(l, 1), true, u);
    s := u;
    assert {} + {0} + {1} + {2} == {0, 1, 2};
    AckLast(s, o, ReadAck(l, 2));
    u := s.(requesters := s.requesters[2 := Only(l, t3)], net := o + Leaving(ReadAck(l, 2), Read));
    Goes(s, AnyRun, ReadAck(l, 2), true, u);
    s := u;
    assert s.net == o + multiset{Unblock(l, 2, 1)};
    Unblocked(s, o, Unblock(l, 2, 1));
    u := s.(homes := s.homes[1 := FREE], net := o + multiset{});
    Goes(s, AnyRun, Unblock(l, 2, 1), true, u);
    s := u;
    assert s == Freed(l);
  }

  /**
   With migration on, a run that is not orderly can give one home two requests at a
   time: a probe of the read is still on its way to the home that serves another line.
   */
  lemma TwoAtOneHome(l: Line, k: Line) returns (s: System, m1: Message, m2: Message)
    requires k != l
    ensures Ends(s, AnyRun) && Live(s, m1) && Live(s, m2)
    ensures m1.home == m2.home && m1.line == l && m2.line == k && !Serial(s)
  {
    hide Ends, Fan, Others, Serial, HomesSerial, Leads;
    var u: System;
    FreedEnds(l);
    s := Freed(l);
    m1, m2 := ReadProbe(l, 1), Probe(k, 1, 1, 0, Read, false);
    var n := s.net;
    Starts(s, AnyRun, 1, k, Read);
    s := StartAt(s, 1, k, Read);
    var r := Req(k, 1, 1, Read, false);
    Opened(s, n, r);
    FanOf(r);
    u := s.(homes := s.homes[1 := BUSY], net := n + Asked(r, 3));
    OpensInOrder(s, AnyRun, n, r, u);
    s := u;
    assert m1 in s.net && m2 in s.net;
    assert !Serial(s) by { if Serial(s) { SerialPair(s, m1, m2); assert false; } }
  }

  // ---------------------------------------------------------------- a request left behind

  /** Node 0 reads two lines it touches first, and node 1 writes the first of them. */
  function ThreeAsked(l: Line, k: Line): System
  {
    System(1, true,
           [map[l := Made(Read), k := Made(Read)], map[l := Made(Write)]],
           [Resting(0), Resting(0)],
           [FREE, FREE],
           map[l := 0, k := 0],
           multiset{FirstRead(l), FirstRead(k), WriteReq(l)})
  }

  lemma ThreeAskedEnds(l: Line, k: Line)
    requires l != k
    ensures Ends(ThreeAsked(l, k), InOrder)
  {
    hide Ends, Leads;
    TwoAskedEnds(l, k);
    var s := ThreeAsked(l, k).(requesters := [map[l := Made(Read), k := Made(Read)], map[]],
                               net := multiset{FirstRead(l), FirstRead(k)});
    Starts(s, InOrder, 1, l, Write);
    assert StartAt(s, 1, l, Write).requesters == ThreeAsked(l, k).requesters;
    assert StartAt(s, 1, l, Write) == ThreeAsked(l, k);
  }

  lemma TwoAskedEnds(l: Line, k: Line)
    requires l != k
    ensures Ends(ThreeAsked(l, k).(requesters := [map[l := Made(Read), k := Made(Read)], map[]],
                                   net := multiset{FirstRead(l), FirstRead(k)}), InOrder)
  {
    hide Ends, Leads;
    var s := System(1, true, [map[], map[]], [Resting(0), Resting(0)], [FREE, FREE], map[], multiset{});
    QuietEnds(2, InOrder);
    assert s == Quiet(2);
    hide Quiet;
    Starts(s, InOrder, 0, l, Read);
    s := StartAt(s, 0, l, Read);
    assert s.requesters == [map[l := Made(Read)], map[]] && s.owner == map[l := 0];
    Starts(s, InOrder, 0, k, Read);
    s := StartAt(s, 0, k, Read);
    assert s.requesters[0] == map[l := Made(Read), k := Made(Read)] && s.owner == map[l := 0, k := 0];
    assert s.requesters == [map[l := Made(Read), k := Made(Read)], map[]];
    assert s == ThreeAsked(l, k).(requesters := [map[l := Made(Read), k := Made(Read)], map[]],
                                  net := multiset{FirstRead(l), FirstRead(k)});
  }

  /** The write is served first; both reads are parked. */
  function ReadsParked(l: Line, k: Line): System
  {
    System(1, true,
           [map[l := Made(Read), k := Made(Read)], map[l := Made(Write)]],
           [Resting(0), Resting(0)],
           [Home(true, [FirstRead(l), FirstRead(k)]), FREE],
           map[l := 0, k := 0],
           multiset{WriteProbe(l, 0), WriteProbe(l, 1)})
  }

  lemma ReadsParkedEnds(l: Line, k: Line)
    requires l != k
    ensures Ends(ReadsParked(l, k), InOrder)
  {
    hide Ends, Fan, Leads;
    var u: System;
    ThreeAskedEnds(l, k);
    var s := ThreeAsked(l, k);
    var n := multiset{FirstRead(l), FirstRead(k)};
    assert s.net == n + multiset{WriteReq(l)};
    Opened(s, n, WriteReq(l));
    FanOf(WriteReq(l));
    var p := multiset{WriteProbe(l, 0), WriteProbe(l, 1)};
    u := s.(homes := s.homes[0 := BUSY], net := n + Asked(WriteReq(l), 2));
    OpensInOrder(s, InOrder, n, WriteReq(l), u);
    s := u;
    assert s.net == (p + multiset{FirstRead(k)}) + multiset{FirstRead(l)};
    Parks(s, p + multiset{FirstRead(k)}, FirstRead(l));
    assert [] + [FirstRead(l)] == [FirstRead(l)];
    u := s.(homes := s.homes[0 := Home(true, [FirstRead(l)])], net := p + multiset{FirstRead(k)});
    Goes(s, InOrder, FirstRead(l), true, u);
    s := u;
    Parks(s, p, FirstRead(k));
    assert [FirstRead(l)] + [FirstRead(k)] == [FirstRead(l), FirstRead(k)];
    u := s.(homes := s.homes[0 := Home(true, [FirstRead(l), FirstRead(k)])], net := p);
    Goes(s, InOrder, FirstRead(k), true, u);
    s := u;
    assert s == ReadsParked(l, k);
  }

  /** The write has been answered everywhere, and its line has moved. */
  function WriteAnswered(l: Line, k: Line): System
  {
    System(1, true,
           [map[l := Made(Read), k := Made(Read)], map[l := Made(Write)]],
           [Resting(l), Resting(l)],
           [Home(true, [FirstRead(l), FirstRead(k)]), FREE],
           map[l := 1, k := 0],
           multiset{WriteAck(l, 0), WriteAck(l, 1)})
  }

  lemma WriteAnsweredEnds(l: Line, k: Line)
    requires l != k
    ensures Ends(WriteAnswered(l, k), InOrder)
  {
    hide Ends, Leads;
    ReadsParkedEnds(l, k);
    var s := ReadsParked(l, k);
    var n := multiset{WriteProbe(l, 1)};
    assert s.net == n + multiset{WriteProbe(l, 0)};
    Visited(s, InOrder, n, WriteProbe(l, 0));
    var owner: Directory := map[l := 1, k := 0];
    assert map[l := 0, k := 0][l := 1] == owner;
    assert Migrated(s.owner, Working(l, 1, false, false), 0, CacheAck(l, 1, 0, 0, Write), false) == owner;
    s := s.(engines := s.engines[0 := Resting(l)], owner := owner, net := n + multiset{WriteAck(l, 0)});
    n := multiset{WriteAck(l, 0)};
    assert s.net == n + multiset{WriteProbe(l, 1)};
    Visited(s, InOrder, n, WriteProbe(l, 1));
    assert Migrated(owner, Working(l, 1, false, false), 1, CacheAck(l, 1, 0, 1, Write), false) == owner;
    s := s.(engines := s.engines[1 := Resting(l)], net := n + multiset{WriteAck(l, 1)});
    assert s == WriteAnswered(l, k);
  }

  function Again(l: Line): Message { Req(l, 0, 1, Read, true) }

  /** The unblock has sent the first parked read after its line; the second one is parked at an idle home. */
  function Left(l: Line, k: Line): System
  {
    System(1, true,
           [map[l := Made(Read), k := Made(Read)], map[l := Transaction(Write, 2, {0, 1}, false, true, false)]],
           [Resting(l), Resting(l)],
           [Home(false, [FirstRead(k)]), FREE],
           map[l := 1, k := 0],
           multiset{Again(l), Store(l, 1, 0)})
  }

  lemma LeftBehind(l: Line, k: Line)
    requires l != k
    ensures Ends(Left(l, k), InOrder) && Stuck(Left(l, k), 0)
  {
    hide Ends, Record, Leads;
    var u: System;
    WriteAnsweredEnds(l, k);
    var s := WriteAnswered(l, k);
    var t1 := Transaction(Write, 1, {} + {0}, false, false, false);
    var t2 := Transaction(Write, 2, {} + {0} + {1}, false, true, false);
    RecordOver(map[], l, Made(Write), t1);
    RecordOver(map[], l, t1, t2);
    var n := multiset{WriteAck(l, 1)};
    assert s.net == n + multiset{WriteAck(l, 0)};
    AckTaken(s, n, WriteAck(l, 0));
    u := s.(requesters := s.requesters[1 := Only(l, t1)], net := n);
    Goes(s, InOrder, WriteAck(l, 0), true, u);
    s := u;
    assert s.net == multiset{} + multiset{WriteAck(l, 1)} && {} + {0} + {1} == {0, 1};
    AckLast(s, multiset{}, WriteAck(l, 1));
    u := s.(requesters := s.requesters[1 := Only(l, t2)], net := multiset{} + Leaving(WriteAck(l, 1), Write));
    Goes(s, InOrder, WriteAck(l, 1), true, u);
    s := u;
    assert s.net == multiset{Store(l, 1, 0)} + multiset{Unblock(l, 1, 0)};
    Unblocked(s, multiset{Store(l, 1, 0)}, Unblock(l, 1, 0));
    assert Requeued(FirstRead(l), s.owner) == Again(l) && [FirstRead(l), FirstRead(k)][1..] == [FirstRead(k)];
    u := s.(homes := s.homes[0 := Home(false, [FirstRead(k)])], net := multiset{Store(l, 1, 0)} + multiset{Again(l)});
    Goes(s, InOrder, Unblock(l, 1, 0), true, u);
    s := u;
    assert s == Left(l, k);
  }

  function AgainProbe(l: Line, d: Node): Message { Probe(l, 0, 1, d, Read, false) }
  function AgainAck(l: Line, d: Node): Message { Ack(l, 0, 1, d, d == 1) }

  /** The write is over and the other read has been taken up where its line is now. */
  function TakenUp(l: Line, k: Line): System
  {
    System(1, true,
           [map[l := Made(Read), k := Made(Read)], map[l := Transaction(Write, 2, {0, 1}, false, true, true)]],
           [Resting(l), Resting(l)],
           [Home(false, [FirstRead(k)]), BUSY],
           map[l := 1, k := 0],
           multiset{AgainProbe(l, 0), AgainProbe(l, 1), DramRead(l, 0, 1)})
  }

  lemma TakenUpEnds(l: Line, k: Line)
    requires l != k
    ensures Ends(TakenUp(l, k), InOrder)
  {
    hide Ends, Fan, Record, Leads;
    var u: System;
    LeftBehind(l, k);
    var s := Left(l, k);
    assert s.net == multiset{Again(l)} + multiset{Store(l, 1, 0)};
    Stored(s, multiset{Again(l)}, Store(l, 1, 0));
    var t := Transaction(Write, 2, {0, 1}, false, true, false);
    RecordOver(map[], l, t, t.(woken := true));
    u := s.(requesters := s.requesters[1 := Only(l, t.(woken := true))], net := multiset{Again(l)});
    Goes(s, InOrder, Store(l, 1, 0), true, u);
    s := u;
    assert s.net == multiset{} + multiset{Again(l)};
    Opened(s, multiset{}, Again(l));
    FanOf(Again(l));
    u := s.(homes := s.homes[1 := BUSY], net := multiset{} + Asked(Again(l), 2));
    OpensInOrder(s, InOrder, multiset{}, Again(l), u);
    s := u;
    assert s == TakenUp(l, k);
  }

  /** Both sockets have answered that read. */
  function Collecting(l: Line, k: Line): System
  {
    System(1, true,
           [map[l := Made(Read), k := Made(Read)], map[l := Transaction(Write, 2, {0, 1}, false, true, true)]],
           [Resting(l), Resting(l)],
           [Home(false, [FirstRead(k)]), BUSY],
           map[l := 1, k := 0],
           multiset{AgainAck(l, 0), AgainAck(l, 1)})
  }

  lemma CollectingEnds(l: Line, k: Line)
    requires l != k
    ensures Ends(Collecting(l, k), InOrder)
  {
    hide Ends, Leads;
    var u: System;
    TakenUpEnds(l, k);
    var s := TakenUp(l, k);
    var n := multiset{AgainProbe(l, 1), DramRead(l, 0, 1)};
    assert s.net == n + multiset{AgainProbe(l, 0)};
    Visited(s, InOrder, n, AgainProbe(l, 0));
    s := s.(engines := s.engines[0 := Resting(l)], net := n + multiset{AgainAck(l, 0)});
    n := multiset{AgainAck(l, 0), DramRead(l, 0, 1)};
    assert s.net == n + multiset{AgainProbe(l, 1)};
    Probed(s, n, AgainProbe(l, 1));
    var q, a := CacheProbe(l, 0, 1, 1, Read), CacheAck(l, 0, 1, 1, Read);
    u := s.(engines := s.engines[1 := Working(l, 2, false, false)], net := n + multiset{q});
    Goes(s, InOrder, AgainProbe(l, 1), true, u);
    s := u;
    n := multiset{AgainAck(l, 0), q};
    assert s.net == n + multiset{DramRead(l, 0, 1)};
    Replies(s, n, DramRead(l, 0, 1));
    u := s.(net := n + multiset{DramAck(l, 0, 1)});
    Goes(s, InOrder, DramRead(l, 0, 1), true, u);
    s := u;
    CountedDown(s, n, DramAck(l, 0, 1));
    u := s.(engines := s.engines[1 := Working(l, 1, false, true)], net := n);
    Goes(s, InOrder, DramAck(l, 0, 1), true, u);
    s := u;
    n := multiset{AgainAck(l, 0)};
    assert s.net == n + multiset{q};
    Replies(s, n, q);
    u := s.(net := n + multiset{a});
    Goes(s, InOrder, q, true, u);
    s := u;
    Finished(s, n, a, 1, false, true);
    u := s.(engines := s.engines[1 := Resting(l)], net := n + multiset{AgainAck(l, 1)});
    Goes(s, InOrder, a, false, u);
    s := u;
    assert s == Collecting(l, k);
  }

  /** Nothing is in flight any more, and the second read is still parked. */
  function Over(l: Line, k: Line): System
  {
    System(1, true,
           [map[l := Transaction(Read, 2, {0, 1}, true, true, true), k := Made(Read)],
            map[l := Transaction(Write, 2, {0, 1}, false, true, true)]],
           [Resting(l), Resting(l)],
           [Home(false, [FirstRead(k)]), FREE],
           map[l := 1, k := 0],
           multiset{})
  }

  /**
   With migration on an orderly run can end with no message left and a transaction
   that nobody will ever serve: its request is parked at an idle home.
   */
  lemma NeverServed(l: Line, k: Line) returns (s: System)
    requires l != k
    ensures OrderlyReachable(s) && s.net == multiset{} && s == Over(l, k)
    ensures !s.requesters[0][k].woken && Parked(s, 0, k)
  {
    hide Record, OrderlyReachable;
    OverEnds(l, k);
    s := Over(l, k);
    EndsReachable(s);
    assert FirstRead(k) in s.homes[0].queue;
  }

  lemma EndsReachable(s: System)
    requires Ends(s, InOrder)
    ensures OrderlyReachable(s)
  {
    hide IsRun, Orderly;
  }

  lemma OverEnds(l: Line, k: Line)
    requires l != k
    ensures Ends(Over(l, k), InOrder)
  {
    hide Ends, Leads;
    var u: System;
    CollectingEnds(l, k);
    var s, w := Collecting(l, k), Only(k, Made(Read));
    var t1 := Transaction(Read, 1, {} + {0}, false, false, false);
    var t2 := Transaction(Read, 2, {} + {0} + {1}, true, true, true);
    RecordOver(w, l, Made(Read), t1);
    RecordOver(w, l, t1, t2);
    assert s.requesters[0] == w[l := Made(Read)];
    var n := multiset{AgainAck(l, 1)};
    assert s.net == n + multiset{AgainAck(l, 0)};
    AckTaken(s, n, AgainAck(l, 0));
    u := s.(requesters := s.requesters[0 := Record(w, l, t1)], net := n);
    Goes(s, InOrder, AgainAck(l, 0), true, u);
    s := u;
    assert s.net == multiset{} + multiset{AgainAck(l, 1)} && {} + {0} + {1} == {0, 1};
    AckLast(s, multiset{}, AgainAck(l, 1));
    u := s.(requesters := s.requesters[0 := Record(w, l, t2)], net := multiset{} + Leaving(AgainAck(l, 1), Read));
    Goes(s, InOrder, AgainAck(l, 1), true, u);
    s := u;
    assert s.net == multiset{} + multiset{Unblock(l, 0, 1)};
    Unblocked(s, multiset{}, Unblock(l, 0, 1));
    u := s.(homes := s.homes[1 := FREE], net := multiset{} + multiset{});
    Goes(s, InOrder, Unblock(l, 0, 1), true, u);
    s := u;
    assert s.requesters[0] == map[l := t2, k := Made(Read)];
    assert s == Over(l, k);
  }
}
