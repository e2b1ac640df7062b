/**
 What single deliveries do, with the messages in flight written out: n is whatever
 else is in flight.  Every node has one cache here.  Runs are built from these steps.
 */
module FabricEffects {
  import opened Requests
  import opened Fabric
  import opened FabricView
  import opened FabricCollect

  predicate Shaped(s: System) { |s.requesters| == |s.engines| == |s.homes| && s.caches == 1 }

  /** Action a can be taken in s, passes its assertions and leads to t. */
  predicate Leads(s: System, a: Action, t: System)
  {
    Enabled(s, a) && Safe(s, a) && Apply(s, a) == t
  }

  function Resting(line: Line): Engine { Engine(false, line, 0, false, false, false, [], map[]) }

  function Working(line: Line, owed: int, invalidating: bool, memory: bool): Engine
  {
    Engine(true, line, owed, invalidating, false, memory, [], map[])
  }

  function Asked(r: Message, total: nat): multiset<Message>
    requires r.Req?
  {
    Fan(r, total) + if r.kind.Read? then multiset{DramRead(r.line, r.source, r.home)} else multiset{}
  }

  lemma Add3<T>(a: T, b: T, c: T)
    ensures multiset{a, b, c} == multiset{a} + multiset{b} + multiset{c}
  {
  }

  lemma Add4<T>(a: T, b: T, c: T, d: T)
    ensures multiset{a, b, c, d} == multiset{a, b, c} + multiset{d}
  {
  }

  lemma Sums<T>(p: multiset<T>, q: multiset<T>, r: multiset<T>, s: multiset<T>)
    ensures p + q + r + s == p + (q + r + s) == (p + r + s) + q == (p + q + s) + r
  {
  }

  /** Taking one message out of a bag of four. */
  lemma OneOfFour<T>(a: T, b: T, c: T, d: T)
    ensures multiset{a, b, c, d} == multiset{a} + multiset{b, c, d}
    ensures multiset{a, b, c, d} == multiset{a, c, d} + multiset{b} == multiset{a, b, d} + multiset{c}
    ensures multiset{a, b, c, d} == multiset{a, b, c} + multiset{d}
  {
    Add4(a, b, c, d);
    Add3(a, b, c);
    Add3(b, c, d);
    Add3(a, c, d);
    Add3(a, b, d);
    Sums(multiset{a}, multiset{b}, multiset{c}, multiset{d});
  }

  function ProbeOf(r: Message, d: Node): Message
    requires r.Req?
  {
    Probe(r.line, r.source, r.home, d, r.kind, false)
  }

  lemma FanOf(r: Message)
    requires r.Req?
    ensures Fan(r, 2) == multiset{ProbeOf(r, 0), ProbeOf(r, 1)} && Fan(r, 3) == Fan(r, 2) + multiset{ProbeOf(r, 2)}
  {
    assert Fan(r, 0) == multiset{} && Fan(r, 1) == multiset{ProbeOf(r, 0)};
  }

  /** An idle home takes a request into service. */
  lemma Opened(s: System, n: multiset<Message>, r: Message)
    requires Shaped(s) && s.net == n + multiset{r} && Opens(s, r)
    ensures Leads(s, Deliver(r, true), s.(homes := s.homes[r.home := s.homes[r.home].(busy := true)],
                                          net := n + Asked(r, Total(s))))
  {
    hide Fan;
    assert s.net - multiset{r} == n;
  }

  /** A request finds its home busy. */
  lemma Parks(s: System, n: multiset<Message>, r: Message)
    requires Shaped(s) && s.net == n + multiset{r} && r.Req? && r.home < |s.homes| && s.homes[r.home].busy
    ensures Leads(s, Deliver(r, true),
                  s.(homes := s.homes[r.home := Home(true, s.homes[r.home].queue + [Label(r, false)])], net := n))
  {
    assert s.net - multiset{r} + multiset{} == n;
  }

  /** A probe reaches an engine at rest, which asks its cache. */
  lemma Probed(s: System, n: multiset<Message>, p: Message)
    requires Shaped(s) && s.net == n + multiset{p} && p.Probe? && p.dest < |s.engines|
    requires s.engines[p.dest] == Resting(s.engines[p.dest].line)
    ensures Leads(s, Deliver(p, true),
                  s.(engines := s.engines[p.dest :=
                       Working(p.line, if WantsDram(p) then 2 else 1, p.kind.Invalidate?, false)],
                     net := n + multiset{CacheProbe(p.line, p.source, p.home, p.dest, p.kind)}))
  {
    var q := CacheProbe(p.line, p.source, p.home, p.dest, p.kind);
    assert multiset{}[q := 1] == multiset{q};
    assert s.net - multiset{p} + multiset{q} == n + multiset{q};
  }

  /** A cache or the memory answers. */
  lemma Replies(s: System, n: multiset<Message>, q: Message)
    requires Shaped(s) && s.net == n + multiset{q} && (q.CacheProbe? || q.DramRead?)
    requires (if q.CacheProbe? then q.dest else q.home) < |s.engines|
    ensures Leads(s, Deliver(q, true), s.(net := n + multiset{Reply(q)}))
  {
    assert s.net - multiset{q} == n;
  }

  /** The last answer, without dirty data: the engine rests, and the line of a write moves if it was here. */
  lemma Finished(s: System, n: multiset<Message>, m: Message, d: Node, invalidating: bool, memory: bool)
    requires Shaped(s) && s.net == n + multiset{m} && d < |s.engines|
    requires (m.CacheAck? && d == m.dest) || (m.DramAck? && d == m.home)
    requires s.engines[d] == Working(m.line, 1, invalidating, memory)
    ensures Leads(s, Deliver(m, false),
                  s.(engines := s.engines[d := Resting(m.line)],
                     owner := if s.migrate then Migrated(s.owner, s.engines[d], d, m, m.DramAck?) else s.owner,
                     net := n + multiset{Ack(m.line, m.source, m.home, d, memory || m.DramAck?)}))
  {
    hide Migrated;
    var ack := multiset{Ack(m.line, m.source, m.home, d, memory || m.DramAck?)};
    assert multiset{} + ack == ack && s.net - multiset{m} + ack == n + ack;
  }

  /** An answer of DRAM that is not the last one. */
  lemma CountedDown(s: System, n: multiset<Message>, m: Message)
    requires Shaped(s) && s.net == n + multiset{m} && m.DramAck? && m.home < |s.engines|
    requires s.engines[m.home] == Working(m.line, 2, false, false)
    ensures Leads(s, Deliver(m, true), s.(engines := s.engines[m.home := Working(m.line, 1, false, true)], net := n))
  {
    assert s.net - multiset{m} + multiset{} == n;
  }

  /** An answer of DRAM at an engine at rest is kept for later. */
  lemma KeptEarly(s: System, n: multiset<Message>, m: Message)
    requires Shaped(s) && s.net == n + multiset{m} && m.DramAck? && m.home < |s.engines|
    requires s.engines[m.home] == Resting(s.engines[m.home].line)
    ensures Leads(s, Deliver(m, true),
                  s.(engines := s.engines[m.home := Resting(s.engines[m.home].line).(early := map[m.line := m])], net := n))
  {
    assert s.net - multiset{m} + multiset{} == n;
  }

  /** The last answer to an invalidation, with dirty data: the line moves here and is written back. */
  lemma TakesOver(s: System, n: multiset<Message>, m: Message)
    requires Shaped(s) && s.migrate && s.net == n + multiset{m} && m.CacheAck? && m.dest < |s.engines|
    requires s.engines[m.dest] == Working(m.line, 1, true, false)
    ensures Leads(s, Deliver(m, true),
                  s.(engines := s.engines[m.dest := Working(m.line, 0, true, false).(dirty := true)],
                     owner := s.owner[m.line := m.dest],
                     net := n + multiset{Evict(m.line, m.source, m.home, m.dest)}))
  {
    assert s.net - multiset{m} == n;
  }

  /** The write-back is done. */
  lemma WrittenBack(s: System, n: multiset<Message>, m: Message)
    requires Shaped(s) && s.net == n + multiset{m} && m.Evict? && m.dest < |s.engines|
    requires s.engines[m.dest] == Working(m.line, 0, true, false).(dirty := true)
    ensures Leads(s, Deliver(m, true),
                  s.(engines := s.engines[m.dest := Resting(m.line)],
                     net := n + multiset{Ack(m.line, m.source, m.home, m.dest, true)}))
  {
    var ack := multiset{Ack(m.line, m.source, m.home, m.dest, true)};
    assert multiset{} + ack == ack && s.net - multiset{m} + ack == n + ack;
  }

  /** An acknowledgement that is not the last one. */
  lemma AckTaken(s: System, n: multiset<Message>, m: Message)
    requires Shaped(s) && s.net == n + multiset{m} && m.Ack?
    requires m.source < Total(s) && m.origin < Total(s) && m.line in s.requesters[m.source]
    requires s.requesters[m.source][m.line].acks + 1 != Total(s)
    ensures var w := s.requesters[m.source];
            var t := w[m.line].(acks := w[m.line].acks + 1, bits := w[m.line].bits + {m.origin},
                                answered := w[m.line].answered || m.data);
            Leads(s, Deliver(m, true), s.(requesters := s.requesters[m.source := Record(w, m.line, t)], net := n))
  {
    hide Record;
    assert s.net - multiset{m} + multiset{} == n;
  }

  function Leaving(m: Message, kind: Kind): multiset<Message>
    requires m.Ack?
  {
    multiset{Unblock(m.line, m.source, m.home)}
    + if kind.Write? then multiset{Store(m.line, m.source, m.home)} else multiset{}
  }

  /** The last acknowledgement sends the unblock, and for a write the store. */
  lemma AckLast(s: System, n: multiset<Message>, m: Message)
    requires Shaped(s) && s.net == n + multiset{m} && m.Ack?
    requires m.source < Total(s) && m.origin < Total(s) && m.line in s.requesters[m.source]
    requires s.requesters[m.source][m.line].acks + 1 == Total(s)
    requires |s.requesters[m.source][m.line].bits + {m.origin}| == Total(s)
    requires s.requesters[m.source][m.line].kind.Read? ==> s.requesters[m.source][m.line].answered || m.data
    ensures var w := s.requesters[m.source];
            Leads(s, Deliver(m, true), s.(requesters := s.requesters[m.source := Record(w, m.line, Filled(w[m.line], m))],
                                          net := n + Leaving(m, w[m.line].kind)))
  {
    hide Record;
    LastCount(s.requesters[m.source], Total(s), m);
    hide OnAck, Leaving, Filled;
    assert s.net - multiset{m} == n;
  }

  /** The record once all acknowledgements are in. */
  function Filled(t: Transaction, m: Message): Transaction
    requires m.Ack?
  {
    Transaction(t.kind, t.acks + 1, t.bits + {m.origin}, t.answered || m.data, true, !t.kind.Write?)
  }

  lemma LastCount(w: Requester, total: nat, m: Message)
    requires m.Ack? && m.line in w && w[m.line].acks + 1 == total
    ensures OnAck(w, total, m) == Outcome(Record(w, m.line, Filled(w[m.line], m)), Leaving(m, w[m.line].kind))
  {
  }

  /** The unblock frees the home and sends the first parked request to the owner of its line. */
  lemma Unblocked(s: System, n: multiset<Message>, u: Message)
    requires Shaped(s) && s.net == n + multiset{u} && u.Unblock? && u.home < |s.homes|
    requires s.homes[u.home].busy && (s.homes[u.home].queue != [] ==> s.homes[u.home].queue[0].line in s.owner)
    ensures var q := s.homes[u.home].queue;
            Leads(s, Deliver(u, true),
                  s.(homes := s.homes[u.home := Home(false, if q == [] then [] else q[1..])],
                     net := n + if q == [] then multiset{} else multiset{Requeued(q[0], s.owner)}))
  {
    hide Requeued;
    assert s.net - multiset{u} == n;
  }

  /** The data has been stored and the writer is woken. */
  lemma Stored(s: System, n: multiset<Message>, m: Message)
    requires Shaped(s) && s.net == n + multiset{m} && m.Store?
    requires m.source < Total(s) && m.line in s.requesters[m.source]
    ensures var w := s.requesters[m.source];
            Leads(s, Deliver(m, true),
                  s.(requesters := s.requesters[m.source := Record(w, m.line, w[m.line].(woken := true))], net := n))
  {
    hide Record;
    assert s.net - multiset{m} + multiset{} == n;
  }
}
