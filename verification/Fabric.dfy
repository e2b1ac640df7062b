/**
 The coherence fabric as a transition system.

 Every node has a system request interface (SRI) and a crossbar.  One atomic
 step is one callback (or one locked region of the blocking transport call):
 it consumes at most one message in flight, updates one node and sends new
 messages.  Hop-by-hop routing is abstracted to direct delivery.  With memory
 migration on, a write that has been answered at the owner of its line moves the
 line to the writer, before the write is complete.
 */
module Fabric {
  import opened Requests

  type Node = nat

  /**
   The messages in flight.  `again` marks a message popped from a queue and
   notified a second time; it is a label that no handler reads, and so is the
   line of an Unblock.
   */
  datatype Message =
    | Req(line: Line, source: Node, home: Node, kind: Kind, again: bool)
    | Probe(line: Line, source: Node, home: Node, dest: Node, kind: Kind, again: bool)
    | DramRead(line: Line, source: Node, home: Node)
    | DramAck(line: Line, source: Node, home: Node)
    | CacheProbe(line: Line, source: Node, home: Node, dest: Node, kind: Kind)
    | CacheAck(line: Line, source: Node, home: Node, dest: Node, kind: Kind)
    | Evict(line: Line, source: Node, home: Node, dest: Node)
    | Ack(line: Line, source: Node, home: Node, origin: Node, data: bool)
    | Unblock(line: Line, source: Node, home: Node)
    | Store(line: Line, source: Node, home: Node)

  function Label(m: Message, again: bool): Message
  {
    match m
    case Req(line, source, home, kind, _) => Req(line, source, home, kind, again)
    case Probe(line, source, home, dest, kind, _) => Probe(line, source, home, dest, kind, again)
    case _ => m
  }

  /** A component after a step, together with what it sent. */
  datatype Outcome<S> = Outcome(state: S, sent: multiset<Message>)

  // ---------------------------------------------------------------- home side of the crossbar

  datatype Home = Home(busy: bool, queue: seq<Message>)

  /** The probes of one request, one for each of the first k sockets. */
  function Fan(r: Message, k: nat): multiset<Message>
    requires r.Req?
  {
    if k == 0 then multiset{}
    else Fan(r, k - 1) + multiset{Probe(r.line, r.source, r.home, k - 1, r.kind, false)}
  }

  function OnReq(c: Home, total: nat, r: Message): Outcome<Home>
    requires r.Req?
  {
    if c.busy then Outcome(c.(queue := c.queue + [Label(r, false)]), multiset{})
    else
      Outcome(c.(busy := true),
              Fan(r, total) + if r.kind.Read? then multiset{DramRead(r.line, r.source, r.home)} else multiset{})
  }

  type Directory = map<Line, Node>

  /** A parked request on its way again: to the node that owns its line by now. */
  function Requeued(m: Message, owner: Directory): Message
  {
    match m
    case Req(line, source, home, kind, _) => Req(line, source, if line in owner then owner[line] else home, kind, true)
    case _ => Label(m, true)
  }

  function OnUnblock(c: Home, owner: Directory): Outcome<Home>
  {
    if c.queue == [] then Outcome(Home(false, []), multiset{})
    else Outcome(Home(false, c.queue[1..]), multiset{Requeued(c.queue[0], owner)})
  }

  // ---------------------------------------------------------------- probe engine of the SRI

  /** `dirty` and `memory`: data of a local cache, and of local DRAM, has been taken in. */
  datatype Engine = Engine(
    busy: bool,
    line: Line,
    owed: int,
    invalidating: bool,
    dirty: bool,
    memory: bool,
    queue: seq<Message>,
    early: map<Line, Message>)

  /** A probe expects DRAM to answer as well: only at the home, only for reads. */
  predicate WantsDram(p: Message)
    requires p.Probe?
  {
    p.dest == p.home && p.kind.Read?
  }

  function OnProbe(e: Engine, caches: nat, p: Message): Outcome<Engine>
    requires p.Probe?
  {
    if e.busy then Outcome(e.(queue := e.queue + [Label(p, false)]), multiset{})
    else
      var owed := caches + (if WantsDram(p) then 1 else 0) - (if p.line in e.early then 1 else 0);
      Outcome(e.(busy := true, line := p.line, owed := owed,
                 invalidating := p.kind.Invalidate?, memory := e.memory || p.line in e.early, early := e.early - {p.line}),
              multiset{}[CacheProbe(p.line, p.source, p.home, p.dest, p.kind) := caches])
  }

  /** Clears the engine and notifies the next queued probe. */
  function ReleaseEngine(e: Engine): Outcome<Engine>
  {
    var e' := e.(busy := false, owed := 0, invalidating := false, dirty := false, memory := false);
    if e.queue == [] then Outcome(e', multiset{})
    else Outcome(e'.(queue := e.queue[1..]), multiset{Label(e.queue[0], true)})
  }

  /** One answer less to wait for, and its data kept. */
  function Noted(e: Engine, m: Message, data: bool): Engine
  {
    e.(owed := e.owed - 1, dirty := e.dirty || (m.CacheAck? && data), memory := e.memory || m.DramAck?)
  }

  /** An answer from a local cache, with or without data, or from local DRAM. */
  function OnLocalAck(e: Engine, me: Node, m: Message, data: bool): Outcome<Engine>
    requires m.CacheAck? || m.DramAck?
  {
    if !e.busy || e.line != m.line then Outcome(e.(early := e.early[m.line := m]), multiset{})
    else
      var e' := Noted(e, m, data);
      if e'.owed != 0 then Outcome(e', multiset{})
      else if e.invalidating && e'.dirty then Outcome(e', multiset{Evict(m.line, m.source, m.home, me)})
      else
        var o := ReleaseEngine(e');
        Outcome(o.state, o.sent + multiset{Ack(m.line, m.source, m.home, me, e'.dirty || e'.memory)})
  }

  /** The answer is the last one the engine waits for. */
  predicate IsLast(e: Engine, m: Message)
  {
    e.busy && e.line == m.line && e.owed == 1
  }

  /** Where the line lives after an answer, with migration on: at the writer, or where dirty data is written back. */
  function Migrated(owner: Directory, e: Engine, me: Node, m: Message, data: bool): Directory
    requires m.CacheAck? || m.DramAck?
  {
    if !IsLast(e, m) then owner
    else if e.invalidating then
      if e.dirty || (m.CacheAck? && data) then owner[m.line := me] else owner
    else if m.CacheAck? && !m.kind.Read? && m.source != me && m.line in owner && owner[m.line] == me then
      owner[m.line := m.source]
    else owner
  }

  /** The evicted line has been written back: now the acknowledgement may leave. */
  function OnEvicted(e: Engine, me: Node, m: Message): Outcome<Engine>
    requires m.Evict?
  {
    var o := ReleaseEngine(e);
    Outcome(o.state, o.sent + multiset{Ack(m.line, m.source, m.home, me, true)})
  }

  // ---------------------------------------------------------------- requester side of the SRI

  /** A transaction in `wait_tran_map`, with its acknowledgement bookkeeping; `answered` once data has come. */
  datatype Transaction =
    Transaction(kind: Kind, acks: nat, bits: set<Node>, answered: bool, unblocked: bool, woken: bool)

  type Requester = map<Line, Transaction>

  function Record(w: Requester, line: Line, t: Transaction): Requester { w[line := t] }

  function OnAck(w: Requester, total: nat, m: Message): Outcome<Requester>
    requires m.Ack? && m.line in w
  {
    var t := w[m.line];
    var t' := t.(acks := t.acks + 1, bits := t.bits + {m.origin}, answered := t.answered || m.data);
    if t'.acks != total then Outcome(Record(w, m.line, t'), multiset{})
    else
      Outcome(Record(w, m.line, t'.(unblocked := true, woken := !t.kind.Write?)),
              multiset{Unblock(m.line, m.source, m.home)}
              + if t.kind.Write? then multiset{Store(m.line, m.source, m.home)} else multiset{})
  }

  // ---------------------------------------------------------------- the whole system

  datatype System = System(
    caches: nat,
    migrate: bool,
    requesters: seq<Requester>,
    engines: seq<Engine>,
    homes: seq<Home>,
    owner: Directory,
    net: multiset<Message>)

  datatype Action =
    | Start(node: Node, line: Line, kind: Kind)
    | Resume(node: Node, line: Line)
    | Deliver(msg: Message, data: bool)

  function Total(s: System): nat { |s.requesters| }

  predicate Init(s: System)
  {
    && s.caches >= 1
    && |s.requesters| == |s.engines| == |s.homes| >= 1
    && (forall i :: 0 <= i < |s.requesters| ==> s.requesters[i] == map[])
    && (forall i :: 0 <= i < |s.engines| ==> s.engines[i] == Engine(false, 0, 0, false, false, false, [], map[]))
    && (forall i :: 0 <= i < |s.homes| ==> s.homes[i] == Home(false, []))
    && s.owner == map[]
    && s.net == multiset{}
  }

  /** What may happen next: the line queues admit one transaction per node and line. */
  predicate Enabled(s: System, a: Action)
  {
    match a
    case Start(node, line, _) => node < Total(s) && line !in s.requesters[node]
    case Resume(node, line) =>
      node < Total(s) && line in s.requesters[node] && s.requesters[node][line].woken
    case Deliver(m, _) => m in s.net
  }

  /** The run-time assertions of the source on the path a message takes. */
  predicate AssertsHold(s: System, m: Message)
  {
    |s.requesters| == |s.engines| == |s.homes| &&
    match m
    case Req(_, _, home, _, _) => home < Total(s)
    case Probe(line, _, _, dest, _, _) =>
      dest < Total(s) && (!s.engines[dest].busy && line in s.engines[dest].early ==> WantsDram(m))
    case DramRead(_, _, home) => home < Total(s)
    case DramAck(line, _, home) =>
      home < Total(s)
      && (!s.engines[home].busy || s.engines[home].line != line ==> line !in s.engines[home].early)
    case CacheProbe(_, _, _, dest, _) => dest < Total(s)
    case CacheAck(line, _, _, dest, _) => dest < Total(s) && s.engines[dest].busy && s.engines[dest].line == line
    case Evict(_, _, _, dest) => dest < Total(s)
    case Ack(line, source, _, origin, data) =>
      && source < Total(s) && origin < Total(s) && line in s.requesters[source]
      && var t := s.requesters[source][line];
         t.acks + 1 == Total(s) ==> |t.bits + {origin}| == Total(s) && (t.kind.Read? ==> t.answered || data)
    case Unblock(_, _, home) =>
      && home < Total(s) && s.homes[home].busy
      && (s.homes[home].queue != [] ==> s.homes[home].queue[0].line in s.owner)
    case Store(line, source, _) => source < Total(s) && line in s.requesters[source]
  }

  function StartAt(s: System, node: Node, line: Line, kind: Kind): System
    requires node < Total(s)
  {
    var home := if line in s.owner then s.owner[line] else node;
    s.(requesters := s.requesters[node := Record(s.requesters[node], line, Transaction(kind, 0, {}, false, false, false))],
       owner := s.owner[line := home],
       net := s.net + multiset{Req(line, node, home, kind, false)})
  }

  function ResumeAt(s: System, node: Node, line: Line): System
    requires node < Total(s)
  {
    var w: Requester := s.requesters[node] - {line};
    s.(requesters := s.requesters[node := w])
  }

  function AtHome(s: System, m: Message, h: Node, o: Outcome<Home>): System
    requires h < |s.homes|
  {
    s.(homes := s.homes[h := o.state], net := s.net - multiset{m} + o.sent)
  }

  function AtEngine(s: System, m: Message, d: Node, o: Outcome<Engine>): System
    requires d < |s.engines|
  {
    s.(engines := s.engines[d := o.state], net := s.net - multiset{m} + o.sent)
  }

  function AtRequester(s: System, m: Message, r: Node, o: Outcome<Requester>): System
    requires r < |s.requesters|
  {
    s.(requesters := s.requesters[r := o.state], net := s.net - multiset{m} + o.sent)
  }

  /** An answer reaches the engine of socket d; with migration on the line may move. */
  function Answered(s: System, m: Message, d: Node, data: bool): System
    requires d < |s.engines| && (m.CacheAck? || m.DramAck?)
  {
    AtEngine(s, m, d, OnLocalAck(s.engines[d], d, m, data))
      .(owner := if s.migrate then Migrated(s.owner, s.engines[d], d, m, data) else s.owner)
  }

  function DeliverTo(s: System, m: Message, data: bool): System
    requires AssertsHold(s, m)
  {
    match m
    case Req(_, _, home, _, _) => AtHome(s, m, home, OnReq(s.homes[home], Total(s), m))
    case Unblock(_, _, home) => AtHome(s, m, home, OnUnblock(s.homes[home], s.owner))
    case Probe(_, _, _, dest, _, _) => AtEngine(s, m, dest, OnProbe(s.engines[dest], s.caches, m))
    case DramAck(_, _, home) => Answered(s, m, home, true)
    case CacheAck(_, _, _, dest, _) => Answered(s, m, dest, data)
    case Evict(_, _, _, dest) => AtEngine(s, m, dest, OnEvicted(s.engines[dest], dest, m))
    case Ack(_, source, _, _, _) => AtRequester(s, m, source, OnAck(s.requesters[source], Total(s), m))
    case Store(line, source, _) =>
      var w := s.requesters[source];
      AtRequester(s, m, source, Outcome(Record(w, line, w[line].(woken := true)), multiset{}))
    // memory and caches answer each question exactly once
    case DramRead(line, source, home) =>
      s.(net := s.net - multiset{m} + multiset{DramAck(line, source, home)})
    case CacheProbe(line, source, home, dest, kind) =>
      s.(net := s.net - multiset{m} + multiset{CacheAck(line, source, home, dest, kind)})
  }

  predicate Safe(s: System, a: Action)
  {
    a.Deliver? ==> AssertsHold(s, a.msg)
  }

  function Apply(s: System, a: Action): System
    requires Enabled(s, a) && Safe(s, a)
  {
    match a
    case Start(node, line, kind) => StartAt(s, node, line, kind)
    case Resume(node, line) => ResumeAt(s, node, line)
    case Deliver(m, data) => DeliverTo(s, m, data)
  }
}
