/**
 The abstract view that explains a reachable state of the fabric: which request
 each home is serving, how far each socket has got with its probe, and where
 every outstanding request is.  The view determines every message in flight.
 */
module FabricView {
  import opened Requests
  import opened Wrappers
  import opened Fabric

  /** Progress of one socket with the probe of the request in service. */
  datatype Socket =
    | Fresh(again: bool)                    // probe in flight
    | Queued                                // parked in the probe queue
    | Probing(probes: nat, acks: nat)       // the engine waits for the caches
    | Evicting                              // write-back of a dirty line in flight
    | Acked(data: bool)                     // acknowledgement in flight, with data or without
    | Recorded                              // counted by the requester

  datatype Dram = NoDram | Reading | Replied | Early | Counted

  datatype Service = Service(line: Line, source: Node, kind: Kind, sockets: seq<Socket>, dram: Dram, done: bool)

  /** Where an outstanding request is. */
  datatype Stage = Flying(again: bool) | Held | Serving | Storing | Woken

  datatype Pending = Pending(kind: Kind, home: Node, stage: Stage)

  type Key = (Node, Line)

  /**
   `still` promises that no line has moved, `lively` that no home has sent a request
   away while others stayed parked, and `single` that no line is served twice at a time.
   */
  datatype View = View(serving: Services, pending: map<Key, Pending>, still: bool, lively: bool, single: bool)

  type Services = map<Node, Service>

  predicate Serves(sv: Services, home: Node, line: Line, source: Node)
  {
    home in sv && sv[home].line == line && sv[home].source == source
  }

  predicate SocketIs(sv: Services, home: Node, line: Line, source: Node, d: Node, k: Socket)
  {
    Serves(sv, home, line, source) && d < |sv[home].sockets| && sv[home].sockets[d] == k
  }

  /** Copies of a request or of a store of written data that pending requests account for. */
  function FromPending(pending: map<Key, Pending>, m: Message): nat
    requires m.Req? || m.Store?
  {
    var x := (m.source, m.line);
    var want := if m.Req? then Pending(m.kind, m.home, Flying(m.again)) else Pending(Write, m.home, Storing);
    One(x in pending && pending[x] == want)
  }

  predicate AboutSocket(m: Message)
  {
    m.Probe? || m.CacheProbe? || m.CacheAck? || m.Evict? || m.Ack?
  }

  function SocketOf(m: Message): Node
    requires AboutSocket(m)
  {
    if m.Ack? then m.origin else m.dest
  }

  /** Copies of m that a socket in state k accounts for, when its service has this kind. */
  function FromSocket(k: Socket, kind: Kind, m: Message): nat
    requires AboutSocket(m)
  {
    match m
    case Probe(_, _, _, _, mkind, again) => One(k == Fresh(again) && mkind == kind)
    case CacheProbe(_, _, _, _, mkind) => if k.Probing? && mkind == kind then k.probes else 0
    case CacheAck(_, _, _, _, mkind) => if k.Probing? && mkind == kind then k.acks else 0
    case Evict(_, _, _, _) => One(k == Evicting)
    case Ack(_, _, _, _, data) => One(k == Acked(data))
  }

  function FromDram(dram: Dram, m: Message): nat
    requires m.DramRead? || m.DramAck?
  {
    One(dram == if m.DramRead? then Reading else Replied)
  }

  /** Copies of every other message that the requests in service account for. */
  function FromService(sv: Services, m: Message): nat
    requires !m.Req? && !m.Store?
  {
    if !Serves(sv, m.home, m.line, m.source) then 0
    else if m.Unblock? then One(sv[m.home].done)
    else if m.DramRead? || m.DramAck? then FromDram(sv[m.home].dram, m)
    else if SocketOf(m) < |sv[m.home].sockets| then
      FromSocket(sv[m.home].sockets[SocketOf(m)], sv[m.home].kind, m)
    else 0
  }

  /** How many copies of m the view says are in flight. */
  function Expected(v: View, m: Message): nat
  {
    if m.Req? || m.Store? then FromPending(v.pending, m) else FromService(v.serving, m)
  }

  // ---------------------------------------------------------------- changes of the view

  function Put(v: View, x: Key, p: Pending): View { v.(pending := v.pending[x := p]) }

  /** Two states of the service at h that differ only in socket d, and in DRAM only if d is the home. */
  predicate Near(a: Service, b: Service, h: Node, d: Node)
  {
    && a.line == b.line && a.source == b.source && a.kind == b.kind && a.done == b.done
    && |a.sockets| == |b.sockets| && d < |a.sockets|
    && (forall e :: 0 <= e < |a.sockets| && e != d ==> a.sockets[e] == b.sockets[e])
    && (d != h ==> a.dram == b.dram)
  }

  function With(v: View, h: Node, b: Service): View { v.(serving := v.serving[h := b]) }

  // ---------------------------------------------------------------- the invariant, part by part

  ghost predicate NetExact(net: multiset<Message>, v: View)
  {
    forall m: Message :: net[m] == Expected(v, m)
  }

  /** A line is served by one home at a time. */
  ghost predicate Distinct(sv: Services)
  {
    forall h: Node, k: Node :: h in sv && k in sv && sv[h].line == sv[k].line ==> h == k
  }

  /** Every line has an owner; while no line has moved, it is the home of the line's requests. */
  ghost predicate Owners(owner: Directory, v: View, total: nat)
  {
    && (forall l :: l in owner ==> owner[l] < total)
    && (forall x: Key :: x in v.pending ==>
          x.1 in owner && v.pending[x].home < total && (v.still ==> owner[x.1] == v.pending[x].home))
    && (forall h: Node :: h in v.serving ==>
          v.serving[h].line in owner && (v.still ==> owner[v.serving[h].line] == h))
    && (v.single ==> Distinct(v.serving))
  }

  /** Answers a probing socket still waits for. */
  function Owed(sv: Service, h: Node, d: Node): int
    requires d < |sv.sockets| && sv.sockets[d].Probing?
  {
    sv.sockets[d].probes + sv.sockets[d].acks + One(d == h && (sv.dram == Reading || sv.dram == Replied))
  }

  ghost predicate ServiceOk(sv: Service, h: Node, total: nat)
  {
    && h < total && sv.source < total
    && |sv.sockets| == total
    && (sv.dram == NoDram <==> !sv.kind.Read?)
    && (match sv.sockets[h]
        case Fresh(_) => sv.dram != Counted
        case Queued => sv.dram != Counted
        case Probing(_, _) => sv.dram != Early
        case _ => sv.dram == NoDram || sv.dram == Counted)
    && (sv.kind.Read? && sv.sockets[h].Acked? ==> sv.sockets[h].data)
    && (sv.done ==> forall d: Node :: d < total ==> sv.sockets[d] == Recorded)
  }

  ghost predicate ServicesOk(v: View, total: nat)
  {
    && (forall h: Node :: h in v.serving ==> ServiceOk(v.serving[h], h, total))
    && (forall h: Node :: h in v.serving && !v.serving[h].done ==>
          (v.serving[h].source, v.serving[h].line) in v.pending
          && v.pending[(v.serving[h].source, v.serving[h].line)] == Pending(v.serving[h].kind, h, Serving))
    && (forall x: Key :: x in v.pending && v.pending[x].stage == Serving ==>
          Serves(v.serving, v.pending[x].home, x.1, x.0) && !v.serving[v.pending[x].home].done)
  }

  ghost predicate TransactionOk(t: Transaction, p: Pending, v: View, total: nat)
  {
    && t.kind == p.kind
    && t.acks == |t.bits|
    && t.woken == (p.stage == Woken)
    && t.unblocked == (p.stage == Woken || p.stage == Storing)
    && (p.stage == Storing ==> t.kind == Write)
    && (t.unblocked ==> forall d: Node :: d < total ==> d in t.bits)
    && (p.stage.Flying? || p.stage.Held? ==> t.bits == {})
    && (p.stage == Serving ==>
          && t.acks < total
          && (p.home in v.serving && |v.serving[p.home].sockets| == total ==>
                && (forall d: Node :: d in t.bits <==> d < total && v.serving[p.home].sockets[d] == Recorded)
                && (t.kind.Read? && p.home in t.bits ==> t.answered)))
    && (t.kind.Read? && t.unblocked ==> t.answered)
  }

  ghost predicate Transactions(rs: seq<Requester>, v: View)
  {
    && (forall x: Key :: x in v.pending <==> x.0 < |rs| && x.1 in rs[x.0])
    && (forall x: Key :: x in v.pending ==> TransactionOk(rs[x.0][x.1], v.pending[x], v, |rs|))
  }

  /** m is a request parked at home h. */
  predicate HeldAt(v: View, h: Node, m: Message)
  {
    m.Req? && m.home == h && !m.again
    && (m.source, m.line) in v.pending && v.pending[(m.source, m.line)] == Pending(m.kind, h, Held)
  }

  ghost predicate HomeOk(c: Home, v: View, h: Node)
  {
    && (c.busy <==> h in v.serving)
    && (forall m: Message :: multiset(c.queue)[m] == One(HeldAt(v, h, m)))
    && (v.lively && !c.busy && c.queue != [] ==>
          exists x: Key :: x in v.pending && v.pending[x].stage == Flying(true) && v.pending[x].home == h)
  }

  /** The engine of socket d is occupied by the request in service at h. */
  predicate Occupies(sv: Services, h: Node, d: Node)
  {
    h in sv && d < |sv[h].sockets| && (sv[h].sockets[d].Probing? || sv[h].sockets[d].Evicting?)
  }

  predicate ProbeIs(sv: Services, h: Node, d: Node, k: Socket)
  {
    h in sv && d < |sv[h].sockets| && sv[h].sockets[d] == k
  }

  /** m is a probe parked at socket d. */
  predicate ParkedAt(sv: Services, d: Node, m: Message)
  {
    m.Probe? && m.dest == d && !m.again
    && SocketIs(sv, m.home, m.line, m.source, d, Queued) && sv[m.home].kind == m.kind
  }

  /** The probe queue of socket d holds exactly the parked probes. */
  ghost predicate ParkedExact(queue: seq<Message>, sv: Services, d: Node)
  {
    forall m: Message :: multiset(queue)[m] == One(ParkedAt(sv, d, m))
  }

  /** The engine is busy exactly with the one request that occupies it, and counts what is still owed. */
  ghost predicate BusyExact(e: Engine, sv: Services, d: Node)
  {
    && (forall h: Node, k: Node :: Occupies(sv, h, d) && Occupies(sv, k, d) ==> h == k)
    && (e.busy ==> exists h: Node :: Occupies(sv, h, d))
    && (forall h: Node :: Occupies(sv, h, d) ==>
          && e.busy && e.line == sv[h].line
          && e.invalidating == sv[h].kind.Invalidate?
          && (sv[h].sockets[d].Probing? ==> e.owed == Owed(sv[h], h, d) >= 1)
          && (sv[h].sockets[d].Probing? && d == h && sv[h].dram == Counted ==> e.memory)
          && (sv[h].sockets[d].Evicting? ==> e.owed == 0))
  }

  predicate EarlyAt(sv: Services, d: Node, l: Line)
  {
    d in sv && sv[d].line == l && sv[d].dram == Early
  }

  ghost predicate EarlyExact(e: Engine, sv: Services, d: Node)
  {
    forall l: Line :: l in e.early <==> EarlyAt(sv, d, l)
  }

  ghost predicate EngineCore(e: Engine, sv: Services, d: Node)
  {
    ParkedExact(e.queue, sv, d) && BusyExact(e, sv, d) && EarlyExact(e, sv, d)
  }

  /** A parked probe is never forgotten. */
  ghost predicate EngineLive(e: Engine, sv: Services, d: Node)
  {
    !e.busy && e.queue != [] ==> exists h: Node :: ProbeIs(sv, h, d, Fresh(true))
  }

  ghost predicate Homes(cs: seq<Home>, v: View)
  {
    forall h: Node :: h < |cs| ==> HomeOk(cs[h], v, h)
  }

  ghost predicate Engines(es: seq<Engine>, sv: Services)
  {
    && (forall d: Node :: d < |es| ==> EngineCore(es[d], sv, d))
    && (forall d: Node :: d < |es| ==> EngineLive(es[d], sv, d))
  }

  /** The sizes fit, and without migration both promises of the view are kept. */
  ghost predicate Sized(s: System, v: View)
  {
    (!s.migrate ==> v.still && v.lively && v.single) && s.caches >= 1 && |s.requesters| == |s.engines| == |s.homes| >= 1
  }

  ghost predicate Inv(s: System, v: View)
  {
    && Sized(s, v)
    && Owners(s.owner, v, Total(s))
    && ServicesOk(v, Total(s))
    && Transactions(s.requesters, v)
    && Homes(s.homes, v)
    && Engines(s.engines, v.serving)
    && NetExact(s.net, v)
  }

  lemma InitInv(s: System)
    requires Init(s)
    ensures Inv(s, View(map[], map[], true, true, true))
  {
  }

  // ---------------------------------------------------------------- what a step must not do to keep a promise

  predicate SamePromises(v: View, v': View)
  {
    v'.still == v.still && v'.lively == v.lively && v'.single == v.single
  }

  /** A promise may be given up when lines can move. */
  lemma GiveUp(s: System, v: View, still: bool, lively: bool, single: bool)
    requires Inv(s, v) && (still ==> v.still) && (lively ==> v.lively) && (single ==> v.single)
    requires !s.migrate ==> still && lively && single
    ensures Inv(s, v.(still := still, lively := lively, single := single))
  {
    var v' := v.(still := still, lively := lively, single := single);
    forall h: Node | h < |s.homes| ensures HomeOk(s.homes[h], v', h) {
      assert HomeOk(s.homes[h], v, h);
      forall m: Message ensures multiset(s.homes[h].queue)[m] == One(HeldAt(v', h, m)) {
        assert multiset(s.homes[h].queue)[m] == One(HeldAt(v, h, m));
      }
    }
    forall m: Message ensures s.net[m] == Expected(v', m) { assert s.net[m] == Expected(v, m); }
    forall x: Key | x in v'.pending ensures TransactionOk(s.requesters[x.0][x.1], v'.pending[x], v', Total(s)) {
      assert TransactionOk(s.requesters[x.0][x.1], v.pending[x], v, Total(s));
    }
  }

  /** The delivery gives a line a new owner. */
  predicate Moves(s: System, m: Message, data: bool)
  {
    match m
    case CacheAck(_, _, _, d, _) => s.migrate && d < |s.engines| && Migrated(s.owner, s.engines[d], d, m, data) != s.owner
    case DramAck(_, _, d) => s.migrate && d < |s.engines| && Migrated(s.owner, s.engines[d], d, m, true) != s.owner
    case _ => false
  }

  /** The unblock sends the first parked request to another node and leaves others parked here. */
  predicate Strands(s: System, m: Message)
  {
    && m.Unblock? && m.home < |s.homes| && |s.homes[m.home].queue| > 1
    && s.homes[m.home].queue[0].line in s.owner && s.owner[s.homes[m.home].queue[0].line] != m.home
  }

  /** The request is about to be taken into service. */
  predicate Opens(s: System, m: Message)
  {
    m.Req? && m.home < |s.homes| && !s.homes[m.home].busy
  }

  ghost predicate Apart(sv: Services, line: Line)
  {
    forall h: Node :: h in sv ==> sv[h].line != line
  }

  /** The probe that the home of this read sent to itself is on its way or parked. */
  predicate OwnProbeOut(s: System, m: Message)
    requires m.DramAck? && m.home < |s.engines|
  {
    || Probe(m.line, m.source, m.home, m.home, Read, false) in s.net
    || Probe(m.line, m.source, m.home, m.home, Read, true) in s.net
    || Probe(m.line, m.source, m.home, m.home, Read, false) in s.engines[m.home].queue
  }

  /** DRAM's answer to a read is about to be counted for another request that its engine works on for the same line. */
  predicate Mistaken(s: System, m: Message)
  {
    && m.DramAck? && m.home < |s.engines|
    && s.engines[m.home].busy && s.engines[m.home].line == m.line && OwnProbeOut(s, m)
  }

  /** A probe without an interest in DRAM is about to start where DRAM has answered for its line. */
  predicate Preempted(s: System, m: Message)
  {
    && m.Probe? && m.dest < |s.engines|
    && !s.engines[m.dest].busy && m.line in s.engines[m.dest].early && !WantsDram(m)
  }

  /** The delivery is not mistaken, finds no early data it does not want, and breaks no promise. */
  ghost predicate Admissible(s: System, v: View, m: Message, data: bool)
  {
    && !Mistaken(s, m) && !Preempted(s, m)
    && (v.single && Opens(s, m) ==> Apart(v.serving, m.line))
    && (v.still ==> !Moves(s, m, data))
    && (v.lively ==> !Strands(s, m))
  }

  /** Names the parts, for proofs that work on one part while the definitions of the others stay hidden. */
  lemma Parts(s: System, v: View)
    requires Inv(s, v)
    ensures Sized(s, v) && Owners(s.owner, v, Total(s)) && ServicesOk(v, Total(s)) && Transactions(s.requesters, v)
    ensures Homes(s.homes, v) && Engines(s.engines, v.serving) && NetExact(s.net, v)
  {
  }

  lemma Whole(s: System, v: View)
    requires Sized(s, v) && Owners(s.owner, v, Total(s)) && ServicesOk(v, Total(s)) && Transactions(s.requesters, v)
    requires Homes(s.homes, v) && Engines(s.engines, v.serving) && NetExact(s.net, v)
    ensures Inv(s, v)
  {
  }
}
