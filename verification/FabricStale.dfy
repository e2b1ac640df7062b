/**
 A request that carries a stale frame to the write-back.  It is parked at its home
 while a write takes the line away, another line gets the line's frame, and an
 invalidation brings the line back to a new frame.  The home still, or again, owns the
 line when the request is popped, so nobody looks the frame up again.
 */
module FabricStale {
  import opened Requests
  import opened Fabric
  import opened FabricView
  import opened FabricEffects
  import opened FabricFrames
  import opened Wrappers
  import D = Directory
  import DirectoryFrames

  /** Some unmistaken run of the fabric with its directory ends in f. */
  ghost predicate Framing(f: Framed, bases: seq<D.Frame>, size: nat)
  {
    exists fs: seq<Framed>, actions: seq<Action> ::
      IsFramedRun(fs, actions, bases, size) && fs[|actions|] == f
  }

  lemma FramingBegins(f: Framed, bases: seq<D.Frame>, size: nat)
    requires FramedInit(f, bases) && size > 0
    ensures Framing(f, bases, size)
  {
    assert IsFramedRun([f], [], bases, size);
  }

  lemma FramingNext(f: Framed, bases: seq<D.Frame>, size: nat, a: Action, t: System, g: Framed)
    requires Framing(f, bases, size) && Leads(f.sys, a, t) && !(a.Deliver? && Mistaken(f.sys, a.msg)) && FrameSafe(f, a)
    requires g.sys == t && g.tables == NextTables(f, size, a)
    requires g.carried == if a.Start? then f.carried[(a.node, a.line) := FrameAt(g.tables, t.owner, a.line)] else f.carried
    requires !Relooks(f, a)
    ensures Framing(g, bases, size)
  {
    hide Enabled, Safe, Apply, Mistaken, FrameSafe, NextTables, Relooks, FrameAt, FramedInit;
    var fs: seq<Framed>, actions: seq<Action> :| IsFramedRun(fs, actions, bases, size) && fs[|actions|] == f;
    var gs, b := fs + [g], actions + [a];
    assert FramedStep(f, size, a, g);
    forall i | 0 <= i < |b| ensures FramedStep(gs[i], size, b[i], gs[i + 1]) {
      if i < |actions| { assert gs[i] == fs[i] && gs[i + 1] == fs[i + 1]; }
    }
    assert IsFramedRun(gs, b, bases, size);
  }

  /** A delivery that leaves the tables alone. */
  lemma Plain(f: Framed, bases: seq<D.Frame>, size: nat, m: Message, data: bool, t: System)
    requires Framing(f, bases, size) && Leads(f.sys, Deliver(m, data), t) && !m.DramAck?
    requires DirectoryOp(f, Deliver(m, data)) == None && !Relooks(f, Deliver(m, data))
    ensures Framing(f.(sys := t), bases, size)
  {
    hide Framing, Leads, DirectoryOp, Relooks;
    FramingNext(f, bases, size, Deliver(m, data), t, f.(sys := t));
  }

  /** A transaction starts; g is the state with its frame looked up. */
  lemma Begins(f: Framed, bases: seq<D.Frame>, size: nat, node: Node, line: Line, kind: Kind, g: Framed)
    requires Framing(f, bases, size) && node < Total(f.sys) && line !in f.sys.requesters[node]
    requires FrameSafe(f, Start(node, line, kind)) && g.sys == StartAt(f.sys, node, line, kind)
    requires g.tables == NextTables(f, size, Start(node, line, kind))
    requires g.carried == f.carried[(node, line) := FrameAt(g.tables, g.sys.owner, line)]
    ensures Framing(g, bases, size)
  {
    hide Framing, FrameSafe, NextTables, FrameAt, StartAt;
    FramingNext(f, bases, size, Start(node, line, kind), g.sys, g);
  }

  /** A probe is put to the cache, which answers. */
  lemma Asks(f: Framed, bases: seq<D.Frame>, size: nat, n: multiset<Message>, p: Message)
    requires Framing(f, bases, size) && Shaped(f.sys) && f.sys.net == n + multiset{p} && p.Probe? && !p.kind.Read?
    requires p.dest < |f.sys.engines| && f.sys.engines[p.dest] == Resting(f.sys.engines[p.dest].line)
    ensures Framing(f.(sys := f.sys.(engines := f.sys.engines[p.dest := Working(p.line, 1, p.kind.Invalidate?, false)],
                                     net := n + multiset{CacheAck(p.line, p.source, p.home, p.dest, p.kind)})), bases, size)
  {
    hide Framing, Leads;
    var q, a := CacheProbe(p.line, p.source, p.home, p.dest, p.kind), CacheAck(p.line, p.source, p.home, p.dest, p.kind);
    var s := f.sys;
    var s1 := s.(engines := s.engines[p.dest := Working(p.line, 1, p.kind.Invalidate?, false)], net := n + multiset{q});
    Probed(s, n, p);
    Plain(f, bases, size, p, true, s1);
    Replies(s1, n, q);
    Plain(f.(sys := s1), bases, size, q, true, s1.(net := n + multiset{a}));
  }

  /** The answer is clean and the line stays: acknowledgement, and the engine rests. */
  lemma Ends(f: Framed, bases: seq<D.Frame>, size: nat, n: multiset<Message>, m: Message)
    requires Framing(f, bases, size) && Shaped(f.sys) && f.sys.net == n + multiset{m} && m.CacheAck?
    requires m.dest < |f.sys.engines| && f.sys.engines[m.dest] == Working(m.line, 1, m.kind.Invalidate?, false)
    requires m.kind.Read? || m.kind.Invalidate? || m.source == m.dest
    ensures Framing(f.(sys := f.sys.(engines := f.sys.engines[m.dest := Resting(m.line)],
                                     net := n + multiset{Ack(m.line, m.source, m.home, m.dest, false)})), bases, size)
  {
    hide Framing, Leads;
    var s := f.sys;
    Finished(s, n, m, m.dest, m.kind.Invalidate?, false);
    assert Migrated(s.owner, s.engines[m.dest], m.dest, m, false) == s.owner;
    assert (if s.migrate then Migrated(s.owner, s.engines[m.dest], m.dest, m, false) else s.owner) == s.owner;
    hide Migrated;
    var t := s.(engines := s.engines[m.dest := Resting(m.line)],
                net := n + multiset{Ack(m.line, m.source, m.home, m.dest, false)});
    assert t == t.(owner := s.owner);
    Plain(f, bases, size, m, false, t);
  }

  // ---------------------------------------------------------------- the tables of the run

  /** Two DRAM bases, the size of a frame, the line of the request and another line. */
  datatype Case = Case(a: nat, b: nat, size: nat, l: Line, k: Line)

  predicate Proper(c: Case) { c.size > 0 && c.l != c.k }

  function Bases(c: Case): seq<D.Frame> { [c.a, c.b] }

  /** The line is at node 0, at node 1, at node 1 with its frame given away, and back at node 0. */
  function AtZero(c: Case): seq<D.Table>
  {
    [D.Table(map[c.l := c.a], {c.l}, [], c.a + c.size), D.Table(map[], {}, [], c.b)]
  }

  function AtOne(c: Case): seq<D.Table>
  {
    [D.Table(map[], {}, [c.a], c.a + c.size), D.Table(map[c.l := c.b], {c.l}, [], c.b + c.size)]
  }

  function Given(c: Case): seq<D.Table>
  {
    [D.Table(map[c.k := c.a], {c.k}, [], c.a + c.size), D.Table(map[c.l := c.b], {c.l}, [], c.b + c.size)]
  }

  function Back(c: Case): seq<D.Table>
  {
    [D.Table(map[c.k := c.a, c.l := c.a + c.size], {c.k, c.l}, [], c.a + c.size + c.size),
     D.Table(map[], {}, [c.b], c.b + c.size)]
  }

  predicate Turns(ts: seq<D.Table>, size: nat, op: D.Op, us: seq<D.Table>)
  {
    D.WellFormed(ts, op) && D.AssertsHold(ts, op) && D.Apply(ts, size, op) == us
  }

  lemma TouchFirst(c: Case)
    requires Proper(c)
    ensures Turns(D.Fresh(Bases(c)), c.size, D.Touch(0, c.l), AtZero(c))
  {
    var t, u := D.Table(map[], {}, [], c.a), D.Table(map[], {}, [], c.b);
    assert D.Fresh(Bases(c)) == [t, u];
    DirectoryFrames.FirstTouch(t, u, c.size, c.l);
    assert D.RealAddress(t, c.size, c.l) == AtZero(c)[0];
  }

  lemma TouchKept(c: Case)
    requires Proper(c)
    ensures Turns(AtZero(c), c.size, D.Touch(1, c.l), AtZero(c)) && Turns(Given(c), c.size, D.Touch(1, c.l), Given(c))
  {
    assert D.Search(AtZero(c), 1, 1, c.l) == Some(0) && D.Search(AtZero(c), 1, 0, c.l) == Some(0);
    assert D.Search(Given(c), 1, 0, c.l) == Some(1);
  }

  lemma MovesAway(c: Case)
    requires Proper(c)
    ensures Turns(AtZero(c), c.size, D.Migrate(0, 1, c.l), AtOne(c))
  {
    DirectoryFrames.Moves(AtZero(c), c.size, 0, 1, c.l);
    assert map[c.l := c.a] - {c.l} == map[];
    assert D.Release(AtZero(c)[0], c.l) == AtOne(c)[0] && D.RealAddress(AtZero(c)[1], c.size, c.l) == AtOne(c)[1];
  }

  lemma TouchOther(c: Case)
    requires Proper(c)
    ensures Turns(AtOne(c), c.size, D.Touch(0, c.k), Given(c))
  {
    DirectoryFrames.FirstTouch(AtOne(c)[0], AtOne(c)[1], c.size, c.k);
    assert D.RealAddress(AtOne(c)[0], c.size, c.k) == Given(c)[0];
    assert AtOne(c) == [AtOne(c)[0], AtOne(c)[1]];
  }

  lemma TakenOver(c: Case)
    requires Proper(c)
    ensures Turns(Given(c), c.size, D.TakeOver(0, c.l, c.b), Back(c))
  {
    var ts := Given(c);
    assert D.Search(ts, 0, 1, c.l) == Some(1);
    assert map[c.l := c.b] - {c.l} == map[];
    assert D.Release(ts[1], c.l) == Back(c)[1] && D.RealAddress(ts[0], c.size, c.l) == Back(c)[0];
    assert D.ReleaseAt(ts, 1, c.l) == [ts[0], Back(c)[1]];
  }

  /** The line has a new frame: whoever carries the first one is refused. */
  lemma Refused(c: Case)
    requires Proper(c)
    ensures !D.AssertsHold(Back(c), D.TakeOver(0, c.l, c.a))
  {
  }

  // ---------------------------------------------------------------- the run

  function Made(kind: Kind): Transaction { Transaction(kind, 0, {}, false, false, false) }

  const FREE: Home := Home(false, [])
  const BUSY: Home := Home(true, [])

  /** Node 0's invalidation, first in flight and then notified again; node 1's write; node 1's invalidation; a read. */
  function First(c: Case): Message { Req(c.l, 0, 0, Invalidate, false) }
  function Popped(c: Case): Message { Req(c.l, 0, 0, Invalidate, true) }
  function FirstProbe(c: Case, d: Node): Message { Probe(c.l, 0, 0, d, Invalidate, false) }
  function WriteReq(c: Case): Message { Req(c.l, 1, 0, Write, false) }
  function WriteProbe(c: Case, d: Node): Message { Probe(c.l, 1, 0, d, Write, false) }
  function WriteAck(c: Case, d: Node): Message { Ack(c.l, 1, 0, d, false) }
  function WriteDone(c: Case): Message { Unblock(c.l, 1, 0) }
  function LaterReq(c: Case): Message { Req(c.l, 1, 1, Invalidate, false) }
  function LaterProbe(c: Case, d: Node): Message { Probe(c.l, 1, 1, d, Invalidate, false) }
  function LaterAck(c: Case, d: Node): Message { Ack(c.l, 1, 1, d, d == 0) }
  function LaterDone(c: Case): Message { Unblock(c.l, 1, 1) }
  function Other(c: Case): Message { Req(c.k, 0, 0, Read, false) }

  /** Nodes 0 and 1 ask node 0, the line's first owner. */
  function Asked2(c: Case): Framed
  {
    Framed(System(1, true,
                  [map[c.l := Made(Invalidate)], map[c.l := Made(Write)]],
                  [Resting(0), Resting(0)],
                  [FREE, FREE],
                  map[c.l := 0],
                  multiset{First(c), WriteReq(c)}),
           AtZero(c),
           map[(0, c.l) := c.a, (1, c.l) := c.a])
  }

  lemma Asked2Framing(c: Case)
    requires Proper(c)
    ensures Framing(Asked2(c), Bases(c), c.size)
  {
    hide Framing, Turns;
    var s := System(1, true, [map[], map[]], [Resting(0), Resting(0)], [FREE, FREE], map[], multiset{});
    var f := Framed(s, D.Fresh(Bases(c)), map[]);
    FramingBegins(f, Bases(c), c.size);
    TouchFirst(c);
    TouchKept(c);
    var s1 := s.(requesters := [map[c.l := Made(Invalidate)], map[]], owner := map[c.l := 0], net := multiset{First(c)});
    assert StartAt(s, 0, c.l, Invalidate) == s1;
    var f1 := Framed(s1, AtZero(c), map[(0, c.l) := c.a]);
    BeginsAt(f, Bases(c), c.size, 0, c.l, Invalidate, f1);
    assert StartAt(s1, 1, c.l, Write) == Asked2(c).sys;
    BeginsAt(f1, Bases(c), c.size, 1, c.l, Write, Asked2(c));
  }

  lemma BeginsAt(f: Framed, bases: seq<D.Frame>, size: nat, node: Node, line: Line, kind: Kind, g: Framed)
    requires Framing(f, bases, size) && node < Total(f.sys) && line !in f.sys.requesters[node]
    requires g.sys == StartAt(f.sys, node, line, kind) && Turns(f.tables, size, D.Touch(node, line), g.tables)
    requires g.carried == f.carried[(node, line) := FrameAt(g.tables, g.sys.owner, line)]
    ensures Framing(g, bases, size)
  {
    hide Framing, FrameAt, StartAt;
    Begins(f, bases, size, node, line, kind, g);
  }

  /** The write is in service, the invalidation parked. */
  function Parked(c: Case): Framed
  {
    Framed(System(1, true,
                  [map[c.l := Made(Invalidate)], map[c.l := Made(Write)]],
                  [Resting(0), Resting(0)],
                  [Home(true, [First(c)]), FREE],
                  map[c.l := 0],
                  multiset{WriteProbe(c, 0), WriteProbe(c, 1)}),
           AtZero(c),
           map[(0, c.l) := c.a, (1, c.l) := c.a])
  }

  lemma ParkedFraming(c: Case)
    requires Proper(c)
    ensures Framing(Parked(c), Bases(c), c.size)
  {
    hide Framing, Leads, Fan, AtZero;
    Asked2Framing(c);
    var f, n := Asked2(c), multiset{First(c)};
    assert f.sys.net == n + multiset{WriteReq(c)};
    Opened(f.sys, n, WriteReq(c));
    FanOf(WriteReq(c));
    var p := multiset{WriteProbe(c, 0), WriteProbe(c, 1)};
    var t := f.sys.(homes := f.sys.homes[0 := BUSY], net := n + Asked(WriteReq(c), 2));
    Plain(f, Bases(c), c.size, WriteReq(c), true, t);
    assert t.net == p + multiset{First(c)};
    Parks(t, p, First(c));
    assert [] + [First(c)] == [First(c)];
    Plain(f.(sys := t), Bases(c), c.size, First(c), true, t.(homes := t.homes[0 := Home(true, [First(c)])], net := p));
    assert t.homes[0 := Home(true, [First(c)])] == Parked(c).sys.homes;
  }

  /** Node 0 has answered the write: the line moves to node 1. */
  function Moved(c: Case): Framed
  {
    Framed(System(1, true,
                  [map[c.l := Made(Invalidate)], map[c.l := Made(Write)]],
                  [Resting(c.l), Resting(0)],
                  [Home(true, [First(c)]), FREE],
                  map[c.l := 1],
                  multiset{WriteProbe(c, 1), WriteAck(c, 0)}),
           AtOne(c),
           map[(0, c.l) := c.a, (1, c.l) := c.a])
  }

  lemma MovedFraming(c: Case)
    requires Proper(c)
    ensures Framing(Moved(c), Bases(c), c.size)
  {
    hide Framing, Leads, AtZero, AtOne, Turns, FrameAt;
    ParkedFraming(c);
    MovesAway(c);
    var f, n := Parked(c), multiset{WriteProbe(c, 1)};
    assert f.sys.net == n + multiset{WriteProbe(c, 0)};
    Asks(f, Bases(c), c.size, n, WriteProbe(c, 0));
    var m := CacheAck(c.l, 1, 0, 0, Write);
    var s := f.sys.(engines := f.sys.engines[0 := Working(c.l, 1, false, false)], net := n + multiset{m});
    Finished(s, n, m, 0, false, false);
    assert map[c.l := 0][c.l := 1] == map[c.l := 1];
    assert Migrated(s.owner, s.engines[0], 0, m, false) == map[c.l := 1];
    assert s.engines[0 := Resting(c.l)] == Moved(c).sys.engines;
    assert n + multiset{WriteAck(c, 0)} == Moved(c).sys.net;
    assert Leads(s, Deliver(m, false), Moved(c).sys);
    assert DirectoryOp(f.(sys := s), Deliver(m, false)) == Some(D.Migrate(0, 1, c.l));
    LastMoves(f.(sys := s), Bases(c), c.size, m, false, Moved(c), D.Migrate(0, 1, c.l));
  }

  /** The last answer of a request moves the line in the tables as well. */
  lemma LastMoves(f: Framed, bases: seq<D.Frame>, size: nat, m: Message, data: bool, g: Framed, op: D.Op)
    requires Framing(f, bases, size) && m.CacheAck? && Leads(f.sys, Deliver(m, data), g.sys)
    requires DirectoryOp(f, Deliver(m, data)) == Some(op) && Turns(f.tables, size, op, g.tables)
    requires g.carried == f.carried
    ensures Framing(g, bases, size)
  {
    hide Framing, Leads, DirectoryOp;
    FramingNext(f, bases, size, Deliver(m, data), g.sys, g);
  }

  /** Node 1 has answered too, and node 0 has touched the other line, which got the frame. */
  function Answered2(c: Case): Framed
  {
    Framed(System(1, true,
                  [map[c.l := Made(Invalidate), c.k := Made(Read)], map[c.l := Made(Write)]],
                  [Resting(c.l), Resting(c.l)],
                  [Home(true, [First(c)]), FREE],
                  map[c.l := 1, c.k := 0],
                  multiset{WriteAck(c, 0), WriteAck(c, 1), Other(c)}),
           Given(c),
           map[(0, c.l) := c.a, (1, c.l) := c.a, (0, c.k) := c.a])
  }

  lemma Answered2Framing(c: Case)
    requires Proper(c)
    ensures Framing(Answered2(c), Bases(c), c.size)
  {
    hide Framing, Leads, AtOne, Turns;
    MovedFraming(c);
    TouchOther(c);
    var f, n := Moved(c), multiset{WriteAck(c, 0)};
    assert f.sys.net == n + multiset{WriteProbe(c, 1)};
    Asks(f, Bases(c), c.size, n, WriteProbe(c, 1));
    var m := CacheAck(c.l, 1, 0, 1, Write);
    f := f.(sys := f.sys.(engines := f.sys.engines[1 := Working(c.l, 1, false, false)], net := n + multiset{m}));
    Ends(f, Bases(c), c.size, n, m);
    f := f.(sys := f.sys.(engines := f.sys.engines[1 := Resting(c.l)], net := n + multiset{WriteAck(c, 1)}));
    assert f.sys.engines == Answered2(c).sys.engines;
    assert StartAt(f.sys, 0, c.k, Read).requesters == Answered2(c).sys.requesters;
    assert StartAt(f.sys, 0, c.k, Read) == Answered2(c).sys;
    BeginsAt(f, Bases(c), c.size, 0, c.k, Read, Answered2(c));
  }

  function Done(kind: Kind, answered: bool, woken: bool): Transaction
  {
    Transaction(kind, 2, {0, 1}, answered, true, woken)
  }

  /** The write is over but for its unblock; node 1 has resumed and wants to invalidate the line. */
  function Resumed(c: Case): Framed
  {
    Framed(System(1, true,
                  [map[c.l := Made(Invalidate), c.k := Made(Read)], map[c.l := Made(Invalidate)]],
                  [Resting(c.l), Resting(c.l)],
                  [Home(true, [First(c)]), FREE],
                  map[c.l := 1, c.k := 0],
                  multiset{Other(c), WriteDone(c), LaterReq(c)}),
           Given(c),
           map[(0, c.l) := c.a, (1, c.l) := c.b, (0, c.k) := c.a])
  }

  /** Both acknowledgements of a transaction of node 1 for line l have been counted. */
  lemma Collects(f: Framed, bases: seq<D.Frame>, size: nat, n: multiset<Message>, l: Line, m0: Message, m1: Message,
                 kind: Kind)
    requires Framing(f, bases, size) && Shaped(f.sys) && Total(f.sys) == 2 && !kind.Read?
    requires f.sys.net == n + multiset{m1} + multiset{m0} && f.sys.requesters[1] == map[l := Made(kind)]
    requires m0.Ack? && m1.Ack? && m0.line == m1.line == l && m0.source == m1.source == 1 && m0.origin == 0
    requires m1.origin == 1
    ensures Framing(f.(sys := f.sys.(requesters :=
                                       f.sys.requesters[1 := map[l := Done(kind, m0.data || m1.data, !kind.Write?)]],
                                     net := n + Leaving(m1, kind))), bases, size)
  {
    hide Framing, Leads, Leaving;
    var s, t := f.sys, Transaction(kind, 1, {} + {0}, m0.data, false, false);
    AckTaken(s, n + multiset{m1}, m0);
    var w: Requester := map[l := t];
    assert Record(s.requesters[1], l, t) == w;
    var u := s.(requesters := s.requesters[1 := w], net := n + multiset{m1});
    assert Made(kind).(acks := 1, bits := {} + {0}, answered := m0.data) == t;
    Plain(f, bases, size, m0, true, u);
    assert {} + {0} + {1} == {0, 1};
    AckLast(u, n, m1);
    assert Filled(t, m1) == Done(kind, m0.data || m1.data, !kind.Write?);
    var v: Requester := map[l := Done(kind, m0.data || m1.data, !kind.Write?)];
    assert Record(w, l, Filled(t, m1)) == v;
    assert u.requesters[1 := v] == s.requesters[1 := v];
    Plain(f.(sys := u), bases, size, m1, true, s.(requesters := s.requesters[1 := v], net := n + Leaving(m1, kind)));
  }

  /** As before, but the invalidation has not started yet. */
  function Free(c: Case): Framed
  {
    Framed(System(1, true,
                  [map[c.l := Made(Invalidate), c.k := Made(Read)], map[]],
                  [Resting(c.l), Resting(c.l)],
                  [Home(true, [First(c)]), FREE],
                  map[c.l := 1, c.k := 0],
                  multiset{Other(c), WriteDone(c)}),
           Given(c),
           map[(0, c.l) := c.a, (1, c.l) := c.a, (0, c.k) := c.a])
  }

  lemma FreeFraming(c: Case)
    requires Proper(c)
    ensures Framing(Free(c), Bases(c), c.size)
  {
    hide Framing, Leads, Given, Turns;
    Answered2Framing(c);
    var f, n := Answered2(c), multiset{Other(c)};
    assert f.sys.net == n + multiset{WriteAck(c, 1)} + multiset{WriteAck(c, 0)};
    Collects(f, Bases(c), c.size, n, c.l, WriteAck(c, 0), WriteAck(c, 1), Write);
    var rs := f.sys.requesters;
    var done, woken: Requester := map[c.l := Done(Write, false, false)], map[c.l := Done(Write, false, true)];
    var o, st := multiset{Other(c), WriteDone(c)}, Store(c.l, 1, 0);
    f := f.(sys := f.sys.(requesters := rs[1 := done], net := n + Leaving(WriteAck(c, 1), Write)));
    assert f.sys.net == o + multiset{st};
    Stored(f.sys, o, st);
    assert Record(done, c.l, done[c.l].(woken := true)) == woken;
    var s := f.sys.(requesters := rs[1 := woken], net := o);
    assert f.sys.requesters[1 := woken] == rs[1 := woken];
    Plain(f, Bases(c), c.size, st, true, s);
    Resumes(f.(sys := s), Bases(c), c.size, c.l);
    assert woken - {c.l} == map[];
    assert ResumeAt(s, 1, c.l).requesters == Free(c).sys.requesters;
  }

  lemma ResumedFraming(c: Case)
    requires Proper(c)
    ensures Framing(Resumed(c), Bases(c), c.size)
  {
    hide Framing, Leads, Given, Turns;
    FreeFraming(c);
    TouchKept(c);
    FrameThere(c);
    assert StartAt(Free(c).sys, 1, c.l, Invalidate).requesters == Resumed(c).sys.requesters;
    assert StartAt(Free(c).sys, 1, c.l, Invalidate) == Resumed(c).sys;
    assert Free(c).carried[(1, c.l) := c.b] == Resumed(c).carried;
    BeginsAt(Free(c), Bases(c), c.size, 1, c.l, Invalidate, Resumed(c));
  }

  lemma FrameThere(c: Case)
    requires Proper(c)
    ensures FrameAt(Given(c), map[c.l := 1, c.k := 0], c.l) == c.b
  {
  }

  lemma Resumes(f: Framed, bases: seq<D.Frame>, size: nat, l: Line)
    requires Framing(f, bases, size) && Total(f.sys) == 2 && l in f.sys.requesters[1] && f.sys.requesters[1][l].woken
    ensures Framing(f.(sys := ResumeAt(f.sys, 1, l)), bases, size)
  {
    hide Framing, ResumeAt;
    FramingNext(f, bases, size, Resume(1, l), ResumeAt(f.sys, 1, l), f.(sys := ResumeAt(f.sys, 1, l)));
  }

  /** Node 0 has found a dirty copy for node 1's invalidation: the line is back, at another frame. */
  function Returned(c: Case): Framed
  {
    Framed(System(1, true,
                  [map[c.l := Made(Invalidate), c.k := Made(Read)], map[c.l := Made(Invalidate)]],
                  [Working(c.l, 0, true, false).(dirty := true), Resting(c.l)],
                  [Home(true, [First(c)]), BUSY],
                  map[c.l := 0, c.k := 0],
                  multiset{Other(c), WriteDone(c), LaterProbe(c, 1), Evict(c.l, 1, 1, 0)}),
           Back(c),
           map[(0, c.l) := c.a, (1, c.l) := c.b, (0, c.k) := c.a])
  }

  lemma ReturnedFraming(c: Case)
    requires Proper(c)
    ensures Framing(Returned(c), Bases(c), c.size)
  {
    hide Framing, Leads, Given, Back, Turns, Fan;
    ResumedFraming(c);
    TakenOver(c);
    var f, o := Resumed(c), multiset{Other(c), WriteDone(c)};
    assert f.sys.net == o + multiset{LaterReq(c)};
    Opened(f.sys, o, LaterReq(c));
    FanOf(LaterReq(c));
    var s := f.sys.(homes := f.sys.homes[1 := BUSY], net := o + Asked(LaterReq(c), 2));
    Plain(f, Bases(c), c.size, LaterReq(c), true, s);
    var n := multiset{Other(c), WriteDone(c), LaterProbe(c, 1)};
    assert s.net == n + multiset{LaterProbe(c, 0)};
    assert s.homes == [Home(true, [First(c)]), BUSY];
    Asks(f.(sys := s), Bases(c), c.size, n, LaterProbe(c, 0));
    var m := CacheAck(c.l, 1, 1, 0, Invalidate);
    s := s.(engines := s.engines[0 := Working(c.l, 1, true, false)], net := n + multiset{m});
    TakesOver(s, n, m);
    assert s.owner[c.l := 0] == map[c.l := 0, c.k := 0];
    assert s.engines[0 := Working(c.l, 0, true, false).(dirty := true)] == Returned(c).sys.engines;
    assert n + multiset{Evict(c.l, 1, 1, 0)} == Returned(c).sys.net;
    assert Leads(s, Deliver(m, true), Returned(c).sys);
    assert DirectoryOp(f.(sys := s), Deliver(m, true)) == Some(D.TakeOver(0, c.l, c.b));
    LastMoves(f.(sys := s), Bases(c), c.size, m, true, Returned(c), D.TakeOver(0, c.l, c.b));
  }

  /** Node 1's invalidation is over but for its unblock. */
  function Over(c: Case): Framed
  {
    Framed(System(1, true,
                  [map[c.l := Made(Invalidate), c.k := Made(Read)], map[c.l := Done(Invalidate, true, true)]],
                  [Resting(c.l), Resting(c.l)],
                  [Home(true, [First(c)]), BUSY],
                  map[c.l := 0, c.k := 0],
                  multiset{Other(c), WriteDone(c), LaterDone(c)}),
           Back(c),
           map[(0, c.l) := c.a, (1, c.l) := c.b, (0, c.k) := c.a])
  }

  lemma OverFraming(c: Case)
    requires Proper(c)
    ensures Framing(Over(c), Bases(c), c.size)
  {
    hide Framing, Leads, Back;
    ReturnedFraming(c);
    var f, n := Returned(c), multiset{Other(c), WriteDone(c), LaterProbe(c, 1)};
    var o := multiset{Other(c), WriteDone(c)};
    assert f.sys.net == n + multiset{Evict(c.l, 1, 1, 0)};
    WrittenBack(f.sys, n, Evict(c.l, 1, 1, 0));
    var s := f.sys.(engines := f.sys.engines[0 := Resting(c.l)], net := n + multiset{LaterAck(c, 0)});
    Plain(f, Bases(c), c.size, Evict(c.l, 1, 1, 0), true, s);
    n := o + multiset{LaterAck(c, 0)};
    assert s.net == n + multiset{LaterProbe(c, 1)};
    Asks(f.(sys := s), Bases(c), c.size, n, LaterProbe(c, 1));
    var m := CacheAck(c.l, 1, 1, 1, Invalidate);
    s := s.(engines := s.engines[1 := Working(c.l, 1, true, false)], net := n + multiset{m});
    Ends(f.(sys := s), Bases(c), c.size, n, m);
    s := s.(engines := s.engines[1 := Resting(c.l)], net := n + multiset{LaterAck(c, 1)});
    assert s.engines == [Resting(c.l), Resting(c.l)];
    assert s.net == o + multiset{LaterAck(c, 1)} + multiset{LaterAck(c, 0)};
    Collects(f.(sys := s), Bases(c), c.size, o, c.l, LaterAck(c, 0), LaterAck(c, 1), Invalidate);
    assert s.requesters[1 := map[c.l := Done(Invalidate, true, true)]] == Over(c).sys.requesters;
    assert o + Leaving(LaterAck(c, 1), Invalidate) == Over(c).sys.net;
  }

  /** The first invalidation is served at last, and node 0's cache answers with a dirty copy. */
  function Answering(c: Case): Framed
  {
    Over(c).(sys := Over(c).sys.(
      engines := [Working(c.l, 1, true, false), Resting(c.l)],
      homes := [BUSY, BUSY],
      net := multiset{Other(c), LaterDone(c), FirstProbe(c, 1)} + multiset{CacheAck(c.l, 0, 0, 0, Invalidate)}))
  }

  lemma AnsweringFraming(c: Case)
    requires Proper(c)
    ensures Framing(Answering(c), Bases(c), c.size)
  {
    hide Framing, Leads, Back, Fan;
    OverFraming(c);
    var f, o := Over(c), multiset{Other(c), LaterDone(c)};
    assert f.sys.net == o + multiset{WriteDone(c)};
    Unblocked(f.sys, o, WriteDone(c));
    assert Requeued(First(c), f.sys.owner) == Popped(c) && [First(c)][1..] == [];
    var s := f.sys.(homes := f.sys.homes[0 := FREE], net := o + multiset{Popped(c)});
    Plain(f, Bases(c), c.size, WriteDone(c), true, s);
    Opened(s, o, Popped(c));
    FanOf(Popped(c));
    var t := s.(homes := s.homes[0 := BUSY], net := o + Asked(Popped(c), 2));
    Plain(f.(sys := s), Bases(c), c.size, Popped(c), true, t);
    var n := multiset{Other(c), LaterDone(c), FirstProbe(c, 1)};
    assert t.net == n + multiset{FirstProbe(c, 0)} && t.homes == [BUSY, BUSY];
    Asks(f.(sys := t), Bases(c), c.size, n, FirstProbe(c, 0));
    assert t.engines[0 := Working(c.l, 1, true, false)] == Answering(c).sys.engines;
  }

  /**
   A request carries a stale frame to the write-back: after an unmistaken run node 0
   is about to take the line over, which it owns, and the request's frame is not the
   line's any more.
   */
  lemma StaleWriteBack(a: nat, b: nat, size: nat, l: Line, k: Line) returns (f: Framed, m: Message)
    requires size > 0 && l != k
    ensures Framing(f, [a, b], size) && m in f.sys.net && AssertsHold(f.sys, m)
    ensures DirectoryOp(f, Deliver(m, true)) == Some(D.TakeOver(0, l, a))
    ensures l in f.sys.owner && f.sys.owner[l] == 0 && FrameAt(f.tables, f.sys.owner, l) == a + size
    ensures !FrameSafe(f, Deliver(m, true))
  {
    hide Framing;
    var c := Case(a, b, size, l, k);
    AnsweringFraming(c);
    Refused(c);
    f, m := Answering(c), CacheAck(l, 0, 0, 0, Invalidate);
  }
}
