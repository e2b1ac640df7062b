/**
 The fabric and the directory together: the nodes' tables follow every step of the
 fabric, and every transaction carries the frame that was looked up for it last.  The
 tables always represent the owners the fabric works with.  The last part is a run in
 which a parked request carries a frame that its line has lost and not got back.
 */
module FabricFrames {
  import opened Wrappers
  import opened Requests
  import opened Fabric
  import opened FabricView
  import opened FabricEngine
  import opened FabricRuns
  import D = Directory

  /** `carried` is the frame address that the request of a transaction, and the answers to it, name. */
  datatype Framed = Framed(sys: System, tables: seq<D.Table>, carried: map<Key, D.Frame>)

  function CarriedBy(f: Framed, source: Node, line: Line): D.Frame
  {
    if (source, line) in f.carried then f.carried[(source, line)] else 0
  }

  /** What the last answer at the engine of socket d does to the tables. */
  function AnswerOp(f: Framed, d: Node, m: Message, data: bool): Option<D.Op>
    requires d < |f.sys.engines| && (m.CacheAck? || m.DramAck?)
  {
    var e := f.sys.engines[d];
    if !f.sys.migrate || !IsLast(e, m) then None
    else if e.invalidating then
      if e.dirty || (m.CacheAck? && data) then Some(D.TakeOver(d, m.line, CarriedBy(f, m.source, m.line))) else None
    else if m.CacheAck? && !m.kind.Read? && m.source != d then Some(D.Migrate(d, m.source, m.line))
    else None
  }

  /** The directory operation of a step, if it has one. */
  function DirectoryOp(f: Framed, a: Action): Option<D.Op>
  {
    match a
    case Start(node, line, _) => Some(D.Touch(node, line))
    case Resume(_, _) => None
    case Deliver(m, data) =>
      match m
      case CacheAck(_, _, _, d, _) => if d < |f.sys.engines| then AnswerOp(f, d, m, data) else None
      case DramAck(_, _, d) => if d < |f.sys.engines| then AnswerOp(f, d, m, true) else None
      case _ => None
  }

  /** The assertions of the source about the tables. */
  predicate FrameSafe(f: Framed, a: Action)
  {
    match DirectoryOp(f, a)
    case None => true
    case Some(op) => D.WellFormed(f.tables, op) && D.AssertsHold(f.tables, op)
  }

  /** The frame the owner of a line has for it. */
  function FrameAt(ts: seq<D.Table>, owner: Directory, line: Line): D.Frame
  {
    if line in owner && owner[line] < |ts| then D.FrameOf(ts[owner[line]], line) else 0
  }

  /** An unblock pops a request whose line has left the home, and looks its frame up again. */
  predicate Relooks(f: Framed, a: Action)
  {
    && a.Deliver? && a.msg.Unblock? && a.msg.home < |f.sys.homes| && f.sys.homes[a.msg.home].queue != []
    && var r := f.sys.homes[a.msg.home].queue[0];
       r.Req? && r.line in f.sys.owner && f.sys.owner[r.line] != a.msg.home
  }

  function NextTables(f: Framed, size: nat, a: Action): seq<D.Table>
    requires FrameSafe(f, a)
  {
    match DirectoryOp(f, a)
    case None => f.tables
    case Some(op) => D.Apply(f.tables, size, op)
  }

  function NextFramed(f: Framed, size: nat, a: Action): Framed
    requires Enabled(f.sys, a) && Safe(f.sys, a) && FrameSafe(f, a)
  {
    var sys, tables := Apply(f.sys, a), NextTables(f, size, a);
    var carried :=
      if a.Start? then f.carried[(a.node, a.line) := FrameAt(tables, sys.owner, a.line)]
      else if Relooks(f, a) then
        var r := f.sys.homes[a.msg.home].queue[0];
        f.carried[(r.source, r.line) := FrameAt(f.tables, f.sys.owner, r.line)]
      else f.carried;
    Framed(sys, tables, carried)
  }

  predicate FramedInit(f: Framed, bases: seq<D.Frame>)
  {
    Init(f.sys) && |bases| == Total(f.sys) && f.tables == D.Fresh(bases) && f.carried == map[]
  }

  predicate FramedStep(f: Framed, size: nat, a: Action, g: Framed)
  {
    && Enabled(f.sys, a) && Safe(f.sys, a) && FrameSafe(f, a) && !(a.Deliver? && Mistaken(f.sys, a.msg))
    && g == NextFramed(f, size, a)
  }

  /** An unmistaken run of the fabric with its directory. */
  ghost predicate IsFramedRun(fs: seq<Framed>, actions: seq<Action>, bases: seq<D.Frame>, size: nat)
  {
    && |fs| == |actions| + 1 && size > 0 && FramedInit(fs[0], bases)
    && forall i :: 0 <= i < |actions| ==> FramedStep(fs[i], size, actions[i], fs[i + 1])
  }

  // ---------------------------------------------------------------- the tables follow the fabric

  ghost predicate Follows(f: Framed, bases: seq<D.Frame>, size: nat)
  {
    && |f.tables| == Total(f.sys) == |bases|
    && D.SingleOwner(f.tables) && D.AllConserved(f.tables, bases, size) && D.Represents(f.tables, f.sys.owner)
  }

  /** A step of the fabric is one update of the owner map, or none. */
  lemma OwnerFollows(f: Framed, a: Action)
    requires Enabled(f.sys, a) && Safe(f.sys, a)
    ensures Apply(f.sys, a).owner ==
            match DirectoryOp(f, a) case None => f.sys.owner case Some(op) => D.Ideal(f.sys.owner, op)
  {
    if a.Deliver? {
      DeliveredOwner(f.sys, a.msg, a.data);
      hide DeliverTo, AssertsHold;
      match a.msg
      case CacheAck(_, _, _, d, _) => AnswerOwner(f, d, a.msg, a.data);
      case DramAck(_, _, d) => AnswerOwner(f, d, a.msg, true);
      case _ =>
    }
  }

  lemma DeliveredOwner(s: System, m: Message, data: bool)
    requires AssertsHold(s, m)
    ensures DeliverTo(s, m, data).owner ==
            match m
            case CacheAck(_, _, _, d, _) => Answered(s, m, d, data).owner
            case DramAck(_, _, d) => Answered(s, m, d, true).owner
            case _ => s.owner
  {
    hide OnReq, OnUnblock, OnProbe, OnEvicted, OnAck, Answered;
  }

  lemma AnswerOwner(f: Framed, d: Node, m: Message, data: bool)
    requires d < |f.sys.engines| && (m.CacheAck? || m.DramAck?)
    ensures Answered(f.sys, m, d, data).owner ==
            match AnswerOp(f, d, m, data) case None => f.sys.owner case Some(op) => D.Ideal(f.sys.owner, op)
  {
    hide OnLocalAck;
  }

  lemma OpFits(f: Framed, v: View, a: Action)
    requires Inv(f.sys, v) && Enabled(f.sys, a) && |f.tables| == Total(f.sys)
    ensures DirectoryOp(f, a).Some? ==> D.WellFormed(f.tables, DirectoryOp(f, a).value)
  {
    if a.Deliver? && a.msg.CacheAck? {
      InFlight(f.sys.net, v, a.msg);
      assert ServiceOk(v.serving[a.msg.home], a.msg.home, Total(f.sys));
    }
  }

  lemma FollowStep(f: Framed, bases: seq<D.Frame>, size: nat, a: Action, g: Framed)
    requires Follows(f, bases, size) && size > 0 && FramedStep(f, size, a, g)
    ensures Follows(g, bases, size)
  {
    OwnerFollows(f, a);
    StepMode(f.sys, a);
    hide Enabled, Safe, Apply, Mistaken, D.AllConserved, D.SingleOwner, D.Represents, D.Apply, D.AssertsHold, D.Ideal;
    match DirectoryOp(f, a)
    case None =>
    case Some(op) =>
      D.StepKeeps(f.tables, bases, size, op);
      D.StepRefines(f.tables, bases, size, op, f.sys.owner);
      SameLength(f.tables, size, op);
  }

  lemma SameLength(ts: seq<D.Table>, size: nat, op: D.Op)
    requires D.WellFormed(ts, op) && D.AssertsHold(ts, op)
    ensures |D.Apply(ts, size, op)| == |ts|
  {
    hide D.RealAddress, D.Release;
  }

  /** Over any unmistaken run the tables represent the fabric's owners. */
  lemma {:induction false} TablesFollow(fs: seq<Framed>, actions: seq<Action>, bases: seq<D.Frame>, size: nat, n: nat)
    requires IsFramedRun(fs, actions, bases, size) && n <= |actions|
    ensures Follows(fs[n], bases, size)
  {
    hide Follows, FramedStep;
    if n == 0 {
      StartFollows(fs[0], bases, size);
    } else {
      TablesFollow(fs, actions, bases, size, n - 1);
      FollowStep(fs[n - 1], bases, size, actions[n - 1], fs[n]);
    }
  }

  lemma StartFollows(f: Framed, bases: seq<D.Frame>, size: nat)
    requires FramedInit(f, bases) && size > 0
    ensures Follows(f, bases, size)
  {
    D.FreshOk(bases, size);
  }

  /** The fabric's part of a framed run is an unmistaken run. */
  lemma SystemRun(fs: seq<Framed>, actions: seq<Action>, bases: seq<D.Frame>, size: nat) returns (states: seq<System>)
    requires IsFramedRun(fs, actions, bases, size)
    ensures IsRun(states, actions) && UnmistakenTo(states, actions, |actions|)
    ensures forall i :: 0 <= i < |fs| ==> states[i] == fs[i].sys
  {
    hide Enabled, Safe, Apply, Mistaken, FramedStep;
    states := seq(|fs|, i requires 0 <= i < |fs| => fs[i].sys);
    forall i | 0 <= i < |actions|
      ensures Enabled(states[i], actions[i]) && Safe(states[i], actions[i])
      ensures states[i + 1] == Apply(states[i], actions[i])
      ensures !(actions[i].Deliver? && Mistaken(states[i], actions[i].msg))
    {
      SystemStep(fs[i], size, actions[i], fs[i + 1]);
    }
  }

  lemma SystemStep(f: Framed, size: nat, a: Action, g: Framed)
    requires FramedStep(f, size, a, g)
    ensures Enabled(f.sys, a) && Safe(f.sys, a) && g.sys == Apply(f.sys, a) && !(a.Deliver? && Mistaken(f.sys, a.msg))
  {
    hide Enabled, Safe, Apply, Mistaken;
  }

  /**
   After any unmistaken run the next step passes the assertions about the tables if and
   only if it is not a takeover of a line already owned whose request carries another
   frame than the line has.
   */
  lemma FramesExactly(fs: seq<Framed>, actions: seq<Action>, bases: seq<D.Frame>, size: nat, a: Action)
    requires IsFramedRun(fs, actions, bases, size) && Enabled(fs[|actions|].sys, a)
    ensures var f := fs[|actions|];
            FrameSafe(f, a) <==>
            match DirectoryOp(f, a)
            case Some(TakeOver(d, line, carried)) =>
              line in f.sys.owner && f.sys.owner[line] == d ==> FrameAt(f.tables, f.sys.owner, line) == carried
            case _ => true
  {
    hide IsRun, Enabled, D.AssertsHold, D.SingleOwner, Inv, UnmistakenTo, DirectoryOp;
    var n, f := |actions|, fs[|actions|];
    TablesFollow(fs, actions, bases, size, n);
    var states := SystemRun(fs, actions, bases, size);
    RunCounts(states, actions);
    var v := RunInv(states, actions, n);
    OpFits(f, v, a);
    match DirectoryOp(f, a)
    case None =>
    case Some(op) =>
      D.NoAssertionFails(f.tables, bases, size, op);
      OwnedHere(f, bases, size, op);
  }

  lemma RunCounts(states: seq<System>, actions: seq<Action>)
    requires IsRun(states, actions)
    ensures |states| == |actions| + 1
  {
  }

  lemma OwnedHere(f: Framed, bases: seq<D.Frame>, size: nat, op: D.Op)
    requires Follows(f, bases, size) && D.WellFormed(f.tables, op)
    ensures op.line in f.tables[op.me].owned <==> op.line in f.sys.owner && f.sys.owner[op.line] == op.me
    ensures op.line in f.tables[op.me].owned ==>
              && op.line in f.tables[op.me].frames
              && FrameAt(f.tables, f.sys.owner, op.line) == f.tables[op.me].frames[op.line]
  {
    assert D.Conserved(f.tables[op.me], bases[op.me], size);
  }
}
