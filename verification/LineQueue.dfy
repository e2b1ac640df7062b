/**
 The per-line queues of a requester: every blocking access to a cache line runs
 in its own process, at most one process per line is in service, and the others
 sleep until some access of the node completes.  Each locked region of the
 blocking transport call is one step, also where an early return forgets to
 give the lock back.
 */
module LineQueue {
  import opened Requests
  import opened Wrappers

  type Pid = nat

  datatype Entry = Entry(pid: Pid, kind: Kind)

  /** `wait_tran_map`, `cache_line_order`, `cache_line_par`, and the lines with acknowledgement bookkeeping. */
  datatype Queues = Queues(wait: map<Line, Entry>, order: map<Line, seq<Pid>>, par: seq<Pid>, acks: set<Line>)

  function Waiters(q: Queues, line: Line): seq<Pid>
  {
    if line in q.order then q.order[line] else []
  }

  function WithOrder(q: Queues, line: Line, s: seq<Pid>): Queues { q.(order := q.order[line := s]) }

  function WithEntry(q: Queues, line: Line, e: Entry): Queues { q.(wait := q.wait[line := e]) }

  /** The line is taken, or somebody else is first in line for it. */
  predicate MustWait(q: Queues, p: Pid, line: Line)
  {
    line in q.wait || (Waiters(q, line) != [] && Waiters(q, line)[0] != p)
  }

  /** A write with data arriving during an invalidation of its line is taken as done. */
  predicate Skips(q: Queues, line: Line, kind: Kind)
  {
    line in q.wait && q.wait[line].kind == Invalidate && kind == Write
  }

  datatype Verdict = Skipped | Sleeps | Enters

  function Decide(q: Queues, p: Pid, line: Line, kind: Kind): Verdict
  {
    if !MustWait(q, p, line) then Enters else if Skips(q, line, kind) then Skipped else Sleeps
  }

  function Admit(q: Queues, p: Pid, line: Line, kind: Kind): Queues
  {
    match Decide(q, p, line, kind)
    case Enters => WithEntry(q, line, Entry(p, kind))
    case Skipped => q
    case Sleeps => WithOrder(q, line, Waiters(q, line) + [p]).(par := q.par + [p])
  }

  /** A woken process may go on when the line is free and it is first in line. */
  predicate MayEnter(q: Queues, p: Pid, line: Line)
  {
    line !in q.wait && Waiters(q, line) != [] && Waiters(q, line)[0] == p
  }

  function Reenter(q: Queues, p: Pid, line: Line, kind: Kind): Queues
  {
    if MayEnter(q, p, line) then WithEntry(WithOrder(q, line, Waiters(q, line)[1..]), line, Entry(p, kind))
    else q.(par := q.par + [p])
  }

  function Finish(q: Queues, line: Line): Queues
  {
    q.(wait := q.wait - {line}, acks := q.acks - {line}, par := [])
  }

  // ---------------------------------------------------------------- the processes of a node

  /** Where a process is in the blocking call; Entered has not yet set up its acknowledgement bookkeeping. */
  datatype Phase =
    | Asleep(line: Line, kind: Kind)
    | Runnable(line: Line, kind: Kind)
    | Entered(line: Line, kind: Kind)
    | Registered(line: Line, kind: Kind)

  type Procs = map<Pid, Phase>

  datatype State = State(q: Queues, procs: Procs)

  datatype Step =
    | Arrive(pid: Pid, line: Line, kind: Kind)
    | Retry(pid: Pid)
    | Register(pid: Pid)
    | Complete(pid: Pid)

  predicate Enabled(s: State, a: Step)
  {
    match a
    case Arrive(p, _, _) => p !in s.procs
    case Retry(p) => p in s.procs && s.procs[p].Runnable?
    case Register(p) => p in s.procs && s.procs[p].Entered?
    case Complete(p) => p in s.procs && s.procs[p].Registered?
  }

  /** Run-time assertions: fresh bookkeeping on registration, an entry to erase on completion. */
  predicate AssertsHold(s: State, a: Step)
    requires Enabled(s, a)
  {
    match a
    case Register(p) => s.procs[p].line !in s.q.acks
    case Complete(p) => s.procs[p].line in s.q.wait && s.procs[p].line in s.q.acks
    case _ => true
  }

  function Put(procs: Procs, p: Pid, ph: Phase): Procs { procs[p := ph] }

  /** Every sleeper in the wake queue becomes runnable. */
  function Wake(procs: Procs, par: seq<Pid>): Procs
  {
    map p | p in procs ::
      if p in par && procs[p].Asleep? then Runnable(procs[p].line, procs[p].kind) else procs[p]
  }

  function Apply(s: State, a: Step): State
    requires Enabled(s, a)
  {
    match a
    case Arrive(p, line, kind) =>
      State(Admit(s.q, p, line, kind),
            match Decide(s.q, p, line, kind)
            case Enters => Put(s.procs, p, Entered(line, kind))
            case Skipped => s.procs
            case Sleeps => Put(s.procs, p, Asleep(line, kind)))
    case Retry(p) =>
      var line, kind := s.procs[p].line, s.procs[p].kind;
      State(Reenter(s.q, p, line, kind),
            Put(s.procs, p, if MayEnter(s.q, p, line) then Entered(line, kind) else Asleep(line, kind)))
    case Register(p) =>
      State(s.q.(acks := s.q.acks + {s.procs[p].line}), Put(s.procs, p, Registered(s.procs[p].line, s.procs[p].kind)))
    case Complete(p) => State(Finish(s.q, s.procs[p].line), Wake(s.procs - {p}, s.q.par))
  }

  function Init(): State { State(Queues(map[], map[], [], {}), map[]) }

  // ---------------------------------------------------------------- invariant

  predicate Serving(ph: Phase) { ph.Entered? || ph.Registered? }

  predicate Waiting(ph: Phase) { ph.Asleep? || ph.Runnable? }

  predicate WaitsFor(procs: Procs, p: Pid, line: Line)
  {
    p in procs && Waiting(procs[p]) && procs[p].line == line
  }

  /** One entry per line, held by the one process in service for it. */
  ghost predicate InService(s: State)
  {
    && (forall l :: l in s.q.wait ==>
          var e := s.q.wait[l]; e.pid in s.procs && Serving(s.procs[e.pid]) && s.procs[e.pid].line == l
                                && s.procs[e.pid].kind == e.kind)
    && (forall p :: p in s.procs && Serving(s.procs[p]) ==>
          s.procs[p].line in s.q.wait && s.q.wait[s.procs[p].line].pid == p)
    && (forall l :: l in s.q.acks <==>
          l in s.q.wait && s.q.wait[l].pid in s.procs && s.procs[s.q.wait[l].pid].Registered?)
  }

  predicate LinedAt(s: State, l: Line, p: Pid)
  {
    multiset(Waiters(s.q, l))[p] == One(WaitsFor(s.procs, p, l))
  }

  /** The queue of a line holds exactly its waiting processes, each once. */
  ghost predicate Lined(s: State)
  {
    forall l: Line, p: Pid :: LinedAt(s, l, p)
  }

  predicate ParkedAt(s: State, p: Pid)
  {
    multiset(s.q.par)[p] == One(p in s.procs && s.procs[p].Asleep?)
  }

  /** The wake queue holds exactly the sleepers, each once. */
  ghost predicate Parked(s: State)
  {
    forall p: Pid :: ParkedAt(s, p)
  }

  /** A free line with waiters has a runnable front waiter. */
  ghost predicate FrontReady(s: State)
  {
    forall l: Line :: l !in s.q.wait && Waiters(s.q, l) != [] ==>
      Waiters(s.q, l)[0] in s.procs && s.procs[Waiters(s.q, l)[0]].Runnable?
  }

  ghost predicate Inv(s: State)
  {
    InService(s) && Lined(s) && Parked(s) && FrontReady(s)
  }

  lemma InitInv()
    ensures Inv(Init())
  {
  }

  lemma Front(s: State, l: Line)
    requires Lined(s) && Waiters(s.q, l) != []
    ensures WaitsFor(s.procs, Waiters(s.q, l)[0], l)
  {
    assert LinedAt(s, l, Waiters(s.q, l)[0]);
  }

  lemma ArriveLined(s: State, p: Pid, line: Line, kind: Kind, l: Line, r: Pid)
    requires Lined(s) && Enabled(s, Arrive(p, line, kind))
    ensures LinedAt(Apply(s, Arrive(p, line, kind)), l, r)
  {
    assert LinedAt(s, l, r);
  }

  lemma ArriveFront(s: State, p: Pid, line: Line, kind: Kind)
    requires Lined(s) && FrontReady(s) && Enabled(s, Arrive(p, line, kind))
    ensures FrontReady(Apply(s, Arrive(p, line, kind)))
  {
    if Waiters(s.q, line) != [] { Front(s, line); }
    hide Lined;
  }

  lemma ArriveService(s: State, p: Pid, line: Line, kind: Kind)
    requires InService(s) && Enabled(s, Arrive(p, line, kind))
    ensures InService(Apply(s, Arrive(p, line, kind)))
  {
  }

  lemma ArriveInv(s: State, p: Pid, line: Line, kind: Kind)
    requires Inv(s) && Enabled(s, Arrive(p, line, kind))
    ensures Inv(Apply(s, Arrive(p, line, kind)))
  {
    var s' := Apply(s, Arrive(p, line, kind));
    ArriveService(s, p, line, kind);
    ArriveFront(s, p, line, kind);
    forall r: Pid ensures ParkedAt(s', r) { assert ParkedAt(s, r); }
    hide LinedAt, ParkedAt, InService, FrontReady, Apply;
    forall l: Line, r: Pid ensures LinedAt(s', l, r) { ArriveLined(s, p, line, kind, l, r); }
  }

  lemma RetryLined(s: State, p: Pid, l: Line, r: Pid)
    requires Lined(s) && Enabled(s, Retry(p))
    ensures LinedAt(Apply(s, Retry(p)), l, r)
  {
    assert LinedAt(s, l, r);
    if MayEnter(s.q, p, s.procs[p].line) {
      assert Waiters(s.q, s.procs[p].line) == [p] + Waiters(s.q, s.procs[p].line)[1..];
    }
  }

  lemma RetryFront(s: State, p: Pid)
    requires Lined(s) && FrontReady(s) && Enabled(s, Retry(p))
    ensures FrontReady(Apply(s, Retry(p)))
  {
    var s' := Apply(s, Retry(p));
    forall l: Line | l !in s'.q.wait && Waiters(s'.q, l) != []
      ensures Waiters(s'.q, l)[0] in s'.procs && s'.procs[Waiters(s'.q, l)[0]].Runnable?
    {
      Front(s, l);
    }
  }

  lemma RetryService(s: State, p: Pid)
    requires InService(s) && Enabled(s, Retry(p))
    ensures InService(Apply(s, Retry(p)))
  {
  }

  lemma RetryInv(s: State, p: Pid)
    requires Inv(s) && Enabled(s, Retry(p))
    ensures Inv(Apply(s, Retry(p)))
  {
    var s' := Apply(s, Retry(p));
    RetryService(s, p);
    RetryFront(s, p);
    forall r: Pid ensures ParkedAt(s', r) { assert ParkedAt(s, r); }
    hide LinedAt, ParkedAt, InService, FrontReady, Apply;
    forall l: Line, r: Pid ensures LinedAt(s', l, r) { RetryLined(s, p, l, r); }
  }

  lemma RegisterInv(s: State, p: Pid)
    requires Inv(s) && Enabled(s, Register(p))
    ensures AssertsHold(s, Register(p)) && Inv(Apply(s, Register(p)))
  {
    var s' := Apply(s, Register(p));
    forall r: Pid ensures ParkedAt(s', r) { assert ParkedAt(s, r); }
    forall l: Line, r: Pid ensures LinedAt(s', l, r) { assert LinedAt(s, l, r); }
  }

  lemma CompleteInv(s: State, p: Pid)
    requires Inv(s) && Enabled(s, Complete(p))
    ensures AssertsHold(s, Complete(p)) && Inv(Apply(s, Complete(p)))
  {
    var s' := Apply(s, Complete(p));
    forall r: Pid ensures r in s.q.par <==> r in s.procs && s.procs[r].Asleep? { assert ParkedAt(s, r); }
    forall r: Pid ensures ParkedAt(s', r) { assert ParkedAt(s, r); }
    forall l: Line, r: Pid ensures LinedAt(s', l, r) { assert LinedAt(s, l, r); }
    assert FrontReady(s') by {
      forall l: Line | l !in s'.q.wait && Waiters(s'.q, l) != []
        ensures Waiters(s'.q, l)[0] in s'.procs && s'.procs[Waiters(s'.q, l)[0]].Runnable?
      {
        Front(s, l);
      }
    }
  }

  lemma StepInv(s: State, a: Step)
    requires Inv(s) && Enabled(s, a)
    ensures AssertsHold(s, a) && Inv(Apply(s, a))
  {
    hide Inv, Apply;
    match a
    case Arrive(p, line, kind) => ArriveInv(s, p, line, kind);
    case Retry(p) => RetryInv(s, p);
    case Register(p) => RegisterInv(s, p);
    case Complete(p) => CompleteInv(s, p);
  }

  // ---------------------------------------------------------------- runs

  ghost predicate IsRun(states: seq<State>, steps: seq<Step>)
  {
    && |states| == |steps| + 1
    && states[0] == Init()
    && forall i :: 0 <= i < |steps| ==> Enabled(states[i], steps[i]) && states[i + 1] == Apply(states[i], steps[i])
  }

  lemma {:induction false} RunInv(states: seq<State>, steps: seq<Step>, n: nat)
    requires IsRun(states, steps) && n <= |steps|
    ensures Inv(states[n])
  {
    hide Inv, Apply, Enabled;
    if n == 0 { InitInv(); }
    else {
      RunInv(states, steps, n - 1);
      StepInv(states[n - 1], steps[n - 1]);
    }
  }

  /** No assertion on the way of any step ever fails. */
  lemma NoAssertionFails(states: seq<State>, steps: seq<Step>, a: Step)
    requires IsRun(states, steps) && Enabled(states[|steps|], a)
    ensures AssertsHold(states[|steps|], a)
  {
    hide Inv, Apply, AssertsHold;
    RunInv(states, steps, |steps|);
    StepInv(states[|steps|], a);
  }

  /** Two processes in service at a node never work on the same line, and neither is left in the wake queue. */
  lemma OnePerLine(states: seq<State>, steps: seq<Step>, p: Pid, r: Pid)
    requires IsRun(states, steps)
    requires var s := states[|steps|]; p in s.procs && r in s.procs && Serving(s.procs[p]) && Serving(s.procs[r])
    ensures var s := states[|steps|];
            && (s.procs[p].line == s.procs[r].line ==> p == r)
            && p !in s.q.par && p !in Waiters(s.q, s.procs[p].line)
  {
    RunInv(states, steps, |steps|);
    var s := states[|steps|];
    assert ParkedAt(s, p) && LinedAt(s, s.procs[p].line, p);
  }

  /** A free line with waiters can always move on: its front waiter is awake, and when it retries it enters. */
  lemma WaitersProgress(states: seq<State>, steps: seq<Step>, line: Line)
    requires IsRun(states, steps) && line !in states[|steps|].q.wait && Waiters(states[|steps|].q, line) != []
    ensures var s := states[|steps|]; var p := Waiters(s.q, line)[0];
            Enabled(s, Retry(p)) && line in Apply(s, Retry(p)).q.wait && Apply(s, Retry(p)).q.wait[line].pid == p
  {
    RunInv(states, steps, |steps|);
    Front(states[|steps|], line);
  }

  // ---------------------------------------------------------------- what becomes of a process

  /** Some process is in service for the line, with a kind of access among these. */
  ghost predicate Served(procs: Procs, line: Line, kinds: set<Kind>)
  {
    exists r: Pid :: r in procs && Serving(procs[r]) && procs[r].line == line && procs[r].kind in kinds
  }

  ghost predicate Awaited(procs: Procs, line: Line)
  {
    exists r: Pid :: WaitsFor(procs, r, line)
  }

  /** A write may be taken as done: an invalidation of its line is in service, and writes it too. */
  ghost predicate Covered(procs: Procs, line: Line, kind: Kind)
  {
    kind == Write && Served(procs, line, {Invalidate})
  }

  lemma EntryServed(s: State, line: Line)
    requires InService(s)
    ensures line in s.q.wait <==> Served(s.procs, line, {Read, Write, Invalidate})
    ensures line in s.q.wait && s.q.wait[line].kind == Invalidate <==> Served(s.procs, line, {Invalidate})
  {
    if line in s.q.wait {
      var r := s.q.wait[line].pid;
      assert r in s.procs && Serving(s.procs[r]) && s.procs[r].line == line;
    }
  }

  lemma QueueAwaited(s: State, line: Line)
    requires Lined(s)
    ensures Waiters(s.q, line) != [] <==> Awaited(s.procs, line)
    ensures forall p: Pid :: p in Waiters(s.q, line) <==> WaitsFor(s.procs, p, line)
  {
    forall p: Pid ensures p in Waiters(s.q, line) <==> WaitsFor(s.procs, p, line) {
      assert LinedAt(s, line, p);
      assert p in Waiters(s.q, line) <==> p in multiset(Waiters(s.q, line));
    }
    if Waiters(s.q, line) != [] { assert Waiters(s.q, line)[0] in Waiters(s.q, line); }
  }

  /**
   What becomes of an arriving access, in terms of the processes alone: it is dropped
   exactly if it is a write with data and an invalidation of its line is in service,
   it goes on exactly if nobody is in service for the line or waits for it, and
   otherwise it sleeps.  No other process changes.
   */
  lemma ArrivesExactly(states: seq<State>, steps: seq<Step>, p: Pid, line: Line, kind: Kind)
    requires IsRun(states, steps) && Enabled(states[|steps|], Arrive(p, line, kind))
    ensures var procs, procs' := states[|steps|].procs, Apply(states[|steps|], Arrive(p, line, kind)).procs;
            && (p !in procs' <==> Covered(procs, line, kind))
            && (p in procs' ==>
                  procs'[p] == if Served(procs, line, {Read, Write, Invalidate}) || Awaited(procs, line)
                               then Asleep(line, kind) else Entered(line, kind))
            && procs' - {p} == procs
  {
    hide Inv;
    RunInv(states, steps, |steps|);
    ArriveExactly(states[|steps|], p, line, kind);
  }

  lemma ArriveExactly(s: State, p: Pid, line: Line, kind: Kind)
    requires Inv(s) && Enabled(s, Arrive(p, line, kind))
    ensures var procs, procs' := s.procs, Apply(s, Arrive(p, line, kind)).procs;
            && (p !in procs' <==> Covered(procs, line, kind))
            && (p in procs' ==>
                  procs'[p] == if Served(procs, line, {Read, Write, Invalidate}) || Awaited(procs, line)
                               then Asleep(line, kind) else Entered(line, kind))
            && procs' - {p} == procs
  {
    EntryServed(s, line);
    QueueAwaited(s, line);
    if Waiters(s.q, line) != [] { Front(s, line); }
    hide Inv, InService, Lined, Parked, FrontReady, Served, Awaited;
  }

  /** A completed access wakes every sleeper of the node and leaves all others as they are. */
  lemma CompletesExactly(states: seq<State>, steps: seq<Step>, p: Pid, r: Pid)
    requires IsRun(states, steps) && Enabled(states[|steps|], Complete(p))
    ensures var procs, procs' := states[|steps|].procs, Apply(states[|steps|], Complete(p)).procs;
            && (r in procs' <==> r in procs && r != p)
            && (r in procs' ==> procs'[r] == if procs[r].Asleep? then Runnable(procs[r].line, procs[r].kind) else procs[r])
  {
    RunInv(states, steps, |steps|);
    assert ParkedAt(states[|steps|], r);
  }

  // ---------------------------------------------------------------- arrival order

  /** The process asks for the line and is not dropped. */
  ghost function AskedBy(s: State, a: Step, line: Line): seq<Pid>
  {
    if a.Arrive? && a.line == line && !Covered(s.procs, line, a.kind) then [a.pid] else []
  }

  predicate ServingAt(procs: Procs, p: Pid, line: Line)
  {
    p in procs && Serving(procs[p]) && procs[p].line == line
  }

  /** The process whose step puts it into service for the line. */
  function GotBy(s: State, a: Step, s': State, line: Line): seq<Pid>
  {
    if !ServingAt(s.procs, a.pid, line) && ServingAt(s'.procs, a.pid, line) then [a.pid] else []
  }

  /** The processes that asked for the line and were not dropped, in the order they asked. */
  ghost function Asked(states: seq<State>, steps: seq<Step>, line: Line, n: nat): seq<Pid>
    requires |states| == |steps| + 1 && n <= |steps|
  {
    if n == 0 then []
    else
      Asked(states, steps, line, n - 1) + AskedBy(states[n - 1], steps[n - 1], line)
  }

  /** The processes that got the line, in the order they got it. */
  ghost function Got(states: seq<State>, steps: seq<Step>, line: Line, n: nat): seq<Pid>
    requires |states| == |steps| + 1 && n <= |steps|
  {
    if n == 0 then []
    else
      Got(states, steps, line, n - 1) + GotBy(states[n - 1], steps[n - 1], states[n], line)
  }

  /** First come, first served: those that got the line, followed by those still queued, are those that asked. */
  lemma {:induction false} ArrivalOrder(states: seq<State>, steps: seq<Step>, line: Line, n: nat)
    requires IsRun(states, steps) && n <= |steps|
    ensures Asked(states, steps, line, n) == Got(states, steps, line, n) + Waiters(states[n].q, line)
  {
    hide Inv, Apply, Decide, Enabled, AskedBy, GotBy;
    if n > 0 {
      ArrivalOrder(states, steps, line, n - 1);
      RunInv(states, steps, n - 1);
      OrderStep(states[n - 1], steps[n - 1], line);
      var asked, got := AskedBy(states[n - 1], steps[n - 1], line), GotBy(states[n - 1], steps[n - 1], states[n], line);
      var before, after := Waiters(states[n - 1].q, line), Waiters(states[n].q, line);
      var taken := Got(states, steps, line, n - 1);
      assert (taken + before) + asked == taken + (before + asked) == taken + (got + after) == (taken + got) + after;
    }
  }

  lemma OrderStep(s: State, a: Step, line: Line)
    requires Inv(s) && Enabled(s, a)
    ensures var s' := Apply(s, a);
            Waiters(s.q, line) + AskedBy(s, a, line) == GotBy(s, a, s', line) + Waiters(s'.q, line)
  {
    match a
    case Arrive(p, l, kind) => ArriveOrder(s, p, l, kind, line);
    case Retry(p) =>
      if MayEnter(s.q, p, s.procs[p].line) {
        var l := s.procs[p].line;
        assert Waiters(s.q, l) == [p] + Waiters(s.q, l)[1..];
      }
    case _ =>
  }

  lemma ArriveOrder(s: State, p: Pid, l: Line, kind: Kind, line: Line)
    requires Inv(s) && Enabled(s, Arrive(p, l, kind))
    ensures var a := Arrive(p, l, kind); var s' := Apply(s, a);
            Waiters(s.q, line) + AskedBy(s, a, line) == GotBy(s, a, s', line) + Waiters(s'.q, line)
  {
    ArriveExactly(s, p, l, kind);
    QueueAwaited(s, l);
    hide Inv, InService, Lined, Parked, FrontReady, Served, Awaited, Covered;
  }

  // ---------------------------------------------------------------- the queues as an object

  class LineTable {
    var waitTranMap: map<Line, Entry>
    var cacheLineOrder: map<Line, seq<Pid>>
    var cacheLinePar: seq<Pid>
    var ackMsgs: set<Line>

    ghost function Value(): Queues
      reads this
    {
      Queues(waitTranMap, cacheLineOrder, cacheLinePar, ackMsgs)
    }

    constructor ()
      ensures Value() == Init().q
    {
      waitTranMap, cacheLineOrder, cacheLinePar, ackMsgs := map[], map[], [], {};
    }

    /** Entry to the blocking call: go on, wait in line, or count as done. */
    method Enter(p: Pid, line: Line, kind: Kind) returns (v: Verdict)
      modifies this
      ensures v == Decide(old(Value()), p, line, kind) && Value() == Admit(old(Value()), p, line, kind)
    {
      if line in waitTranMap
         || (line in cacheLineOrder && |cacheLineOrder[line]| > 0 && cacheLineOrder[line][0] != p) {
        if line in waitTranMap && waitTranMap[line].kind == Invalidate && kind == Write {
          return Skipped;
        }
        var earlier := if line in cacheLineOrder then cacheLineOrder[line] else [];
        cacheLineOrder := cacheLineOrder[line := earlier + [p]];
        cacheLinePar := cacheLinePar + [p];
        return Sleeps;
      }
      waitTranMap := waitTranMap[line := Entry(p, kind)];
      return Enters;
    }

    /** What a woken process does: enter when it is its turn, else sleep again. */
    method Again(p: Pid, line: Line, kind: Kind) returns (entered: bool)
      requires p in Waiters(Value(), line)
      modifies this
      ensures entered == MayEnter(old(Value()), p, line) && Value() == Reenter(old(Value()), p, line, kind)
    {
      entered := line !in waitTranMap && line in cacheLineOrder && cacheLineOrder[line][0] == p;
      if entered {
        cacheLineOrder := cacheLineOrder[line := cacheLineOrder[line][1..]];
        waitTranMap := waitTranMap[line := Entry(p, kind)];
      } else {
        cacheLinePar := cacheLinePar + [p];
      }
    }

    /** Completion: forget the access and notify every process in the wake queue, in order. */
    method Done(line: Line) returns (notified: seq<Pid>)
      requires line in waitTranMap && line in ackMsgs
      modifies this
      ensures Value() == Finish(old(Value()), line) && notified == old(cacheLinePar)
    {
      ackMsgs := ackMsgs - {line};
      waitTranMap := waitTranMap - {line};
      notified := [];
      while cacheLinePar != []
        invariant notified + cacheLinePar == old(cacheLinePar)
        invariant waitTranMap == old(waitTranMap) - {line} && ackMsgs == old(ackMsgs) - {line}
        invariant cacheLineOrder == old(cacheLineOrder)
        decreases |cacheLinePar|
      {
        notified := notified + [cacheLinePar[0]];
        cacheLinePar := cacheLinePar[1..];
      }
    }
  }
}
