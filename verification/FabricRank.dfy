/**
 How much work a state of the fabric has left: a number that every delivery of a
 message makes smaller, so that requests already made cannot circulate forever.
 */
module FabricRank {
  import opened Wrappers
  import opened Fabric
  import opened FabricView

  // ---------------------------------------------------------------- weights

  /** Deliveries a socket may still cause; c is the number of caches. */
  function SocketWeight(k: Socket, c: nat): nat
  {
    match k
    case Fresh(_) => 2 * c + 7
    case Queued => 2 * c + 6
    case Probing(probes, acks) => 2 * probes + acks + 5
    case Evicting => 4
    case Acked(_) => 2
    case Recorded => 0
  }

  function SocketsWeight(ks: seq<Socket>, c: nat): nat
  {
    if ks == [] then 0 else SocketsWeight(ks[..|ks| - 1], c) + SocketWeight(ks[|ks| - 1], c)
  }

  function DramWeight(d: Dram): nat
  {
    match d
    case Reading => 2
    case Replied => 1
    case _ => 0
  }

  function ServiceWeight(a: Service, c: nat): nat
  {
    3 + SocketsWeight(a.sockets, c) + DramWeight(a.dram)
  }

  function ServicesWeight(sv: Services, n: nat, c: nat): nat
  {
    if n == 0 then 0
    else ServicesWeight(sv, n - 1, c) + if n - 1 in sv then ServiceWeight(sv[n - 1], c) else 0
  }

  predicate Waits(p: Pending) { p.stage.Flying? || p.stage.Held? }

  function Waiting(pending: map<Key, Pending>): set<Key>
  {
    set x | x in pending && Waits(pending[x])
  }

  function FlyingKeys(pending: map<Key, Pending>): set<Key>
  {
    set x | x in pending && pending[x].stage.Flying?
  }

  function StoringKeys(pending: map<Key, Pending>): set<Key>
  {
    set x | x in pending && pending[x].stage == Storing
  }

  /** More than a request in service ever weighs. */
  function Price(n: nat, c: nat): nat { n * (2 * c + 7) + 5 }

  /** Requests not yet in service weigh more than a whole service. */
  function Rank(v: View, n: nat, c: nat): nat
  {
    |Waiting(v.pending)| * Price(n, c) + ServicesWeight(v.serving, n, c)
    + |FlyingKeys(v.pending)| + |StoringKeys(v.pending)|
  }

  ghost predicate Falls(v: View, v': View, n: nat, c: nat) { Rank(v', n, c) < Rank(v, n, c) && SamePromises(v, v') }

  // ---------------------------------------------------------------- sums

  lemma {:induction false} SocketsUpdate(ks: seq<Socket>, d: nat, k: Socket, c: nat)
    requires d < |ks|
    ensures SocketsWeight(ks[d := k], c) == SocketsWeight(ks, c) - SocketWeight(ks[d], c) + SocketWeight(k, c)
  {
    var init := ks[..|ks| - 1];
    if d == |ks| - 1 {
      assert ks[d := k][..|ks| - 1] == init;
    } else {
      assert ks[d := k][..|ks| - 1] == init[d := k];
      SocketsUpdate(init, d, k, c);
    }
  }

  lemma {:induction false} SocketsUniform(ks: seq<Socket>, w: nat, c: nat)
    requires forall d :: 0 <= d < |ks| ==> SocketWeight(ks[d], c) == w
    ensures SocketsWeight(ks, c) == |ks| * w
  {
    if ks != [] { SocketsUniform(ks[..|ks| - 1], w, c); }
  }

  lemma {:induction false} ServicesSame(sv: Services, sv': Services, n: nat, c: nat)
    requires forall h: Node :: h < n ==> (h in sv <==> h in sv') && (h in sv ==> sv[h] == sv'[h])
    ensures ServicesWeight(sv, n, c) == ServicesWeight(sv', n, c)
  {
    if n > 0 { ServicesSame(sv, sv', n - 1, c); }
  }

  function WeightAt(sv: Services, h: Node, c: nat): nat { if h in sv then ServiceWeight(sv[h], c) else 0 }

  /** Changing the services in one place changes the sum by the difference there. */
  lemma {:induction false} ServicesUpdate(sv: Services, sv': Services, h: Node, n: nat, c: nat)
    requires h < n && forall k: Node :: k != h ==> (k in sv <==> k in sv') && (k in sv ==> sv[k] == sv'[k])
    ensures ServicesWeight(sv', n, c) == ServicesWeight(sv, n, c) - WeightAt(sv, h, c) + WeightAt(sv', h, c)
  {
    if h == n - 1 { ServicesSame(sv, sv', n - 1, c); } else { ServicesUpdate(sv, sv', h, n - 1, c); }
  }

  lemma PutSets(pending: map<Key, Pending>, x: Key, p: Pending)
    requires x in pending
    ensures var q := pending[x];
            && |Waiting(pending[x := p])| == |Waiting(pending)| - One(Waits(q)) + One(Waits(p))
            && |FlyingKeys(pending[x := p])| == |FlyingKeys(pending)| - One(q.stage.Flying?) + One(p.stage.Flying?)
            && |StoringKeys(pending[x := p])| == |StoringKeys(pending)| - One(q.stage == Storing) + One(p.stage == Storing)
  {
    var q, pending' := pending[x], pending[x := p];
    Adjust(Waiting(pending), Waiting(pending'), x);
    Adjust(FlyingKeys(pending), FlyingKeys(pending'), x);
    Adjust(StoringKeys(pending), StoringKeys(pending'), x);
  }

  lemma Adjust(a: set<Key>, b: set<Key>, x: Key)
    requires forall y: Key :: y != x ==> (y in a <==> y in b)
    ensures |b| == |a| - One(x in a) + One(x in b)
  {
    assert a - {x} == b - {x};
    if x in a { assert a == a - {x} + {x}; } else { assert a == a - {x}; }
    if x in b { assert b == b - {x} + {x}; } else { assert b == b - {x}; }
  }

  // ---------------------------------------------------------------- the rank falls

  lemma FallsStore(v: View, x: Key, n: nat, c: nat)
    requires x in v.pending && v.pending[x].stage == Storing
    ensures Falls(v, Put(v, x, v.pending[x].(stage := Woken)), n, c)
  {
    PutSets(v.pending, x, v.pending[x].(stage := Woken));
    hide Waiting, FlyingKeys, StoringKeys, ServicesWeight, Price;
  }

  lemma FallsHold(v: View, x: Key, n: nat, c: nat)
    requires x in v.pending && v.pending[x].stage.Flying?
    ensures Falls(v, Put(v, x, v.pending[x].(stage := Held)), n, c)
  {
    PutSets(v.pending, x, v.pending[x].(stage := Held));
    hide Waiting, FlyingKeys, StoringKeys, ServicesWeight, Price;
  }

  /** The weight of the part of a service that a step at socket d can change. */
  function Local(a: Service, d: Node, c: nat): nat
    requires d < |a.sockets|
  {
    SocketWeight(a.sockets[d], c) + DramWeight(a.dram)
  }

  lemma NearWeight(a: Service, b: Service, h: Node, d: Node, c: nat)
    requires Near(a, b, h, d)
    ensures ServiceWeight(b, c) == ServiceWeight(a, c) - Local(a, d, c) + Local(b, d, c)
  {
    SocketsUpdate(a.sockets, d, b.sockets[d], c);
    assert a.sockets[d := b.sockets[d]] == b.sockets;
  }

  lemma NearSum(sv: Services, h: Node, b: Service, d: Node, n: nat, c: nat)
    requires h in sv && h < n && Near(sv[h], b, h, d)
    ensures ServicesWeight(sv[h := b], n, c) == ServicesWeight(sv, n, c) - Local(sv[h], d, c) + Local(b, d, c)
  {
    NearWeight(sv[h], b, h, d, c);
    ServicesUpdate(sv, sv[h := b], h, n, c);
  }

  lemma FallsNear(v: View, h: Node, b: Service, d: Node, n: nat, c: nat)
    requires h in v.serving && h < n && Near(v.serving[h], b, h, d) && Local(b, d, c) < Local(v.serving[h], d, c)
    ensures Falls(v, With(v, h, b), n, c)
  {
    NearSum(v.serving, h, b, d, n, c);
    hide ServicesWeight, Local, Waiting, FlyingKeys, StoringKeys, Price;
  }

  /** A step that frees an engine may send a parked probe on its way again, which adds one. */
  lemma FallsRelease(v: View, v1: View, v': View, k: Node, d: Node, n: nat, c: nat)
    requires Rank(v1, n, c) + 1 < Rank(v, n, c) && SamePromises(v, v1)
    requires k in v1.serving && k < n && d < |v1.serving[k].sockets| && v1.serving[k].sockets[d] == Queued
    requires v' == With(v1, k, v1.serving[k].(sockets := v1.serving[k].sockets[d := Fresh(true)]))
    ensures Falls(v, v', n, c)
  {
    var a := v1.serving[k];
    var b := a.(sockets := a.sockets[d := Fresh(true)]);
    assert Near(a, b, k, d);
    NearSum(v1.serving, k, b, d, n, c);
    hide ServicesWeight, Waiting, FlyingKeys, StoringKeys, Price;
  }

  lemma DropsNear(v: View, h: Node, b: Service, d: Node, n: nat, c: nat)
    requires h in v.serving && h < n && Near(v.serving[h], b, h, d)
    ensures Rank(With(v, h, b), n, c) == Rank(v, n, c) - Local(v.serving[h], d, c) + Local(b, d, c)
  {
    NearSum(v.serving, h, b, d, n, c);
    hide ServicesWeight, Local, Waiting, FlyingKeys, StoringKeys, Price;
  }

  lemma FallsOpen(v: View, x: Key, h: Node, a: Service, p: Pending, n: nat, c: nat)
    requires x in v.pending && v.pending[x].stage.Flying? && p.stage == Serving
    requires h !in v.serving && h < n && |a.sockets| == n
    requires forall d :: 0 <= d < n ==> a.sockets[d] == Fresh(false)
    ensures Falls(v, Put(With(v, h, a), x, p), n, c)
  {
    SocketsUniform(a.sockets, 2 * c + 7, c);
    ServicesUpdate(v.serving, v.serving[h := a], h, n, c);
    PutSets(v.pending, x, p);
    hide ServicesWeight, SocketsWeight, Waiting, FlyingKeys, StoringKeys;
    var w := |Waiting(v.pending)|;
    assert (w - 1) * Price(n, c) == w * Price(n, c) - Price(n, c);
  }

  lemma FallsRecord(v: View, x: Key, h: Node, d: Node, b: Service, p: Pending, n: nat, c: nat)
    requires x in v.pending && v.pending[x].stage == Serving
    requires (p.stage == Serving || p.stage == Storing || p.stage == Woken)
    requires h in v.serving && h < n && d < |v.serving[h].sockets| && v.serving[h].sockets[d].Acked?
    requires b.sockets == v.serving[h].sockets[d := Recorded] && b.dram == v.serving[h].dram
    ensures Falls(v, Put(With(v, h, b), x, p), n, c)
  {
    SocketsUpdate(v.serving[h].sockets, d, Recorded, c);
    ServicesUpdate(v.serving, v.serving[h := b], h, n, c);
    PutSets(v.pending, x, p);
    hide ServicesWeight, SocketsWeight, Waiting, FlyingKeys, StoringKeys, Price;
  }

  lemma FallsClose(v: View, h: Node, n: nat, c: nat)
    requires h in v.serving && h < n
    ensures Rank(v.(serving := v.serving - {h}), n, c) + 3 <= Rank(v, n, c)
  {
    ServicesUpdate(v.serving, v.serving - {h}, h, n, c);
    hide ServicesWeight, SocketsWeight, Waiting, FlyingKeys, StoringKeys, Price;
  }

  lemma FallsCloseNext(v: View, h: Node, x: Key, p: Pending, n: nat, c: nat)
    requires h in v.serving && h < n && x in v.pending && v.pending[x].stage == Held && p.stage.Flying?
    ensures Falls(v, Put(v.(serving := v.serving - {h}), x, p), n, c)
  {
    FallsClose(v, h, n, c);
    PutSets(v.pending, x, p);
    hide ServicesWeight, SocketsWeight, Waiting, FlyingKeys, StoringKeys, Price;
  }
}
