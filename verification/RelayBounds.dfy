/**
  Duplicate suppression bounds what a node does with one packet ID: hand-overs and forwards together
  never outnumber its dedup misses, and those are more than the dedup TTL apart.
 */
module RelayBounds {
  import opened Common
  import opened Relay
  import opened RelayConservation
  import opened RelayRuns
  import Dedup
  import Router

  // ----- What a node logged about one ID -----

  /** The times of the dedup misses of `id`. */
  function Misses(accepts: seq<Accept>, id: PacketId): seq<Time> {
    if accepts == [] then []
    else
      var a := accepts[|accepts| - 1];
      Misses(accepts[..|accepts| - 1], id) + if a.id == id then [a.at] else []
  }

  function HandedCount(hs: seq<Handing>, id: PacketId): nat {
    if hs == [] then 0
    else HandedCount(hs[..|hs| - 1], id) + if hs[|hs| - 1].pkt.id == id then 1 else 0
  }

  function SentCount(fs: seq<Flight>, id: PacketId): nat {
    if fs == [] then 0
    else SentCount(fs[..|fs| - 1], id) + if fs[|fs| - 1].pkt.id == id then 1 else 0
  }

  /** The copies of `id` that node `n` has queued or is working on. */
  ghost function Holding(s: Net, n: PeerId, id: PacketId): set<int>
    requires |s.place| == |s.injected|
  {
    set t | 0 <= t < |s.place| && s.injected[t].id == id && (s.place[t].Waiting? || s.place[t].Held?) && s.place[t].node == n
  }

  // ----- Spending never exceeds acceptances -----

  ghost predicate Affordable(s: Net, n: PeerId, id: PacketId)
    requires |s.place| == |s.injected| && n in s.nodes
  {
    var log := s.nodes[n].log;
    HandedCount(log.handed, id) + SentCount(log.sent, id) + |Holding(s, n, id)| <= |Misses(log.accepts, id)|
  }

  ghost predicate Budget(s: Net) {
    && |s.place| == |s.injected|
    && forall n, id :: n in s.nodes ==> Affordable(s, n, id)
  }

  predicate SameLog(x: Node, x': Node) {
    x'.log.handed == x.log.handed && x'.log.sent == x.log.sent
  }

  lemma RouteLog(isPeerId: Bytes -> bool, s: Net, m: PeerId, p: Packet, j: nat, n: PeerId)
    requires n in s.nodes && m in s.nodes && p.copy < |s.place|
    ensures n in Route(isPeerId, s, m, p, j).nodes && SameLog(s.nodes[n], Route(isPeerId, s, m, p, j).nodes[n])
  {
  }

  lemma JobLog(s: Net, j: nat, n: PeerId, f: nat, flight: Flight)
    requires Working(s, j) && n in s.nodes && flight.pkt.copy < |s.place|
    ensures var job := s.jobs[j];
      && (n != job.node ==> SameLog(s.nodes[n], Deliver(Pop(s, j), job.node, job.recipient, job.pending[0]).nodes[n]))
      && SameLog(s.nodes[n], Keep(Pop(s, j), job.node, job.recipient, job.pending[0]).nodes[n])
      && (n != job.node ==> SameLog(s.nodes[n], Fly(Pop(s, j), job.node, f, flight).nodes[n]))
  {
  }

  /** Only handing over and forwarding are logged as such, at the node that does it. */
  lemma StepLog(isPeerId: Bytes -> bool, s: Net, e: Event, n: PeerId)
    requires Enabled(s, e) && n in s.nodes && !((e.Hand? || e.Forward?) && s.jobs[e.job].node == n)
    ensures n in Step(isPeerId, s, e).nodes && SameLog(s.nodes[n], Step(isPeerId, s, e).nodes[n])
  {
    match e
    case Inject(m, p, j) => RouteLog(isPeerId, Admit(s, p), m, p, j, n);
    case Receive(f, j) => RouteLog(isPeerId, Land(s, f), s.flights[f].dst, s.flights[f].pkt, j, n);
    case Hand(j) => JobLog(s, j, n, 0, Flight([], s.jobs[j].pending[0]));
    case PutBack(j) => JobLog(s, j, n, 0, Flight([], s.jobs[j].pending[0]));
    case Forward(j, f) => JobLog(s, j, n, f, Flight(s.jobs[j].stage.via, s.jobs[j].pending[0]));
    case Lose(_) =>
    case Flush(_, _, _, _) =>
    case SweepQueue(_) =>
    case Local(_, _) =>
    case _ =>
  }

  /** The node and packet a step puts through `Route`, if any. */
  function Routed(s: Net, e: Event): Option<(PeerId, Packet)> {
    match e
    case Inject(n, p, _) => Some((n, p))
    case Receive(f, _) => if f in s.flights then Some((s.flights[f].dst, s.flights[f].pkt)) else None
    case _ => None
  }

  predicate Accepted(s: Net, e: Event, n: PeerId, id: PacketId) {
    var r := Routed(s, e);
    r.Some? && r.value.0 == n && r.value.1.id == id && n in s.nodes && id !in s.nodes[n].dedup
  }

  lemma RouteMisses(isPeerId: Bytes -> bool, s: Net, m: PeerId, p: Packet, j: nat, n: PeerId, id: PacketId)
    requires n in s.nodes && m in s.nodes && p.copy < |s.place|
    ensures n in Route(isPeerId, s, m, p, j).nodes
    ensures Misses(Route(isPeerId, s, m, p, j).nodes[n].log.accepts, id) ==
      Misses(s.nodes[n].log.accepts, id) + if m == n && p.id == id && id !in s.nodes[n].dedup then [s.nodes[n].now] else []
  {
    var accepts := s.nodes[m].log.accepts;
    if p.id !in s.nodes[m].dedup {
      var more := accepts + [Accept(p.id, s.nodes[m].now)];
      assert more[..|accepts|] == accepts;
      assert Route(isPeerId, s, m, p, j).nodes[m].log.accepts == more;
    }
  }

  /** Neither the clock nor the dedup map, nor what is logged about it, changed. */
  predicate SameDedup(x: Node, x': Node) {
    x'.now == x.now && x'.dedup == x.dedup && x'.log.accepts == x.log.accepts && x'.log.evicted == x.log.evicted
  }

  lemma QuietJob(s: Net, j: nat, n: PeerId, f: nat, flight: Flight)
    requires Working(s, j) && n in s.nodes && flight.pkt.copy < |s.place|
    ensures var job := s.jobs[j];
      && SameDedup(s.nodes[n], Deliver(Pop(s, j), job.node, job.recipient, job.pending[0]).nodes[n])
      && SameDedup(s.nodes[n], Keep(Pop(s, j), job.node, job.recipient, job.pending[0]).nodes[n])
      && SameDedup(s.nodes[n], Fly(Pop(s, j), job.node, f, flight).nodes[n])
  {
  }

  lemma QuietAct(x: Node, a: Act)
    requires !a.EvictIds? && !a.Tick?
    ensures SameDedup(x, Acted(x, a))
  {
  }

  /** Most steps touch neither the clock nor the dedup map. */
  lemma QuietNode(isPeerId: Bytes -> bool, s: Net, e: Event, n: PeerId)
    requires Enabled(s, e) && n in s.nodes && !e.Inject? && !e.Receive? && (e.Local? ==> !e.act.EvictIds? && !e.act.Tick?)
    ensures n in Step(isPeerId, s, e).nodes && SameDedup(s.nodes[n], Step(isPeerId, s, e).nodes[n])
  {
    match e
    case Hand(j) => QuietJob(s, j, n, 0, Flight([], s.jobs[j].pending[0]));
    case PutBack(j) => QuietJob(s, j, n, 0, Flight([], s.jobs[j].pending[0]));
    case Forward(j, f) => QuietJob(s, j, n, f, Flight(s.jobs[j].stage.via, s.jobs[j].pending[0]));
    case Local(m, a) => QuietAct(s.nodes[m], a);
    case Lose(_) =>
    case Flush(_, _, _, _) =>
    case SweepQueue(_) =>
    case _ =>
  }

  lemma {:induction false} StepMisses(isPeerId: Bytes -> bool, s: Net, e: Event, n: PeerId, id: PacketId)
    requires Enabled(s, e) && n in s.nodes
    ensures n in Step(isPeerId, s, e).nodes
    ensures Misses(Step(isPeerId, s, e).nodes[n].log.accepts, id) ==
      Misses(s.nodes[n].log.accepts, id) + if Accepted(s, e, n, id) then [s.nodes[n].now] else []
  {
    match e
    case Inject(m, p, j) => RouteMisses(isPeerId, Admit(s, p), m, p, j, n, id);
    case Receive(f, j) => RouteMisses(isPeerId, Land(s, f), s.flights[f].dst, s.flights[f].pkt, j, n, id);
    case Local(m, a) =>
    case _ => QuietNode(isPeerId, s, e, n);
  }

  lemma RouteHolding(isPeerId: Bytes -> bool, s: Net, m: PeerId, p: Packet, j: nat, n: PeerId, id: PacketId)
    requires n in s.nodes && m in s.nodes && Sized(s) && Known(s, p) && s.place[p.copy] == Transit
    ensures var s' := Route(isPeerId, s, m, p, j);
      && s'.injected == s.injected && |s'.place| == |s.place|
      && Holding(s', n, id) <= Holding(s, n, id) + if m == n && p.id == id && id !in s.nodes[n].dedup then {p.copy} else {}
  {
    RoutePlace(isPeerId, s, m, p, j);
  }

  lemma InjectHolding(isPeerId: Bytes -> bool, s: Net, m: PeerId, p: Packet, j: nat, n: PeerId, id: PacketId)
    requires Located(s) && m in s.nodes && n in s.nodes && p.copy == |s.injected|
    ensures var s' := Route(isPeerId, Admit(s, p), m, p, j);
      && |s'.place| == |s'.injected|
      && Holding(s', n, id) <= Holding(s, n, id) + if m == n && p.id == id && id !in s.nodes[n].dedup then {p.copy} else {}
  {
    AdmitOk(s, p);
    RouteHolding(isPeerId, Admit(s, p), m, p, j, n, id);
    assert Holding(Admit(s, p), n, id) == Holding(s, n, id);
  }

  lemma ReceiveHolding(isPeerId: Bytes -> bool, s: Net, f: nat, j: nat, n: PeerId, id: PacketId)
    requires Located(s) && f in s.flights && s.flights[f].dst in s.nodes && n in s.nodes
    ensures var s', m, p := Route(isPeerId, Land(s, f), s.flights[f].dst, s.flights[f].pkt, j), s.flights[f].dst, s.flights[f].pkt;
      && |s'.place| == |s'.injected|
      && Holding(s', n, id) <= Holding(s, n, id) + if m == n && p.id == id && id !in s.nodes[n].dedup then {p.copy} else {}
  {
    LandOk(s, f);
    RouteHolding(isPeerId, Land(s, f), s.flights[f].dst, s.flights[f].pkt, j, n, id);
    assert Holding(Land(s, f), n, id) <= Holding(s, n, id);
  }

  lemma QuietHolding(s: Net, s': Net, n: PeerId, id: PacketId)
    requires |s.place| == |s.injected| && s'.injected == s.injected
    requires Lawful(s.place, s'.place) && NoArrival(s.place, s'.place)
    ensures Holding(s', n, id) <= Holding(s, n, id)
  {
  }

  /** A node gains a copy of `id` only by accepting it, and then at most that one copy. */
  lemma {:induction false} StepHolding(isPeerId: Bytes -> bool, s: Net, e: Event, n: PeerId, id: PacketId)
    requires Located(s) && Enabled(s, e) && n in s.nodes
    ensures |Step(isPeerId, s, e).place| == |Step(isPeerId, s, e).injected|
    ensures Holding(Step(isPeerId, s, e), n, id) <=
      Holding(s, n, id) + if Accepted(s, e, n, id) then {Routed(s, e).value.1.copy} else {}
  {
    match e
    case Inject(m, p, j) => InjectHolding(isPeerId, s, m, p, j, n, id);
    case Receive(f, j) => ReceiveHolding(isPeerId, s, f, j, n, id);
    case _ => QuietStepHolding(isPeerId, s, e, n, id);
  }

  lemma QuietStepHolding(isPeerId: Bytes -> bool, s: Net, e: Event, n: PeerId, id: PacketId)
    requires Located(s) && Enabled(s, e) && !e.Inject? && !e.Receive?
    ensures |Step(isPeerId, s, e).place| == |Step(isPeerId, s, e).injected|
    ensures Holding(Step(isPeerId, s, e), n, id) <= Holding(s, n, id)
  {
    StepLawful(isPeerId, s, e);
    StepFrame(isPeerId, s, e);
    QuietHolding(s, Step(isPeerId, s, e), n, id);
  }

  /** Handing over or forwarding a copy of `id` uses up one that the node held. */
  lemma SpendHolding(isPeerId: Bytes -> bool, s: Net, e: Event)
    requires Located(s) && Enabled(s, e) && (e.Hand? || e.Forward?)
    ensures var s', job := Step(isPeerId, s, e), s.jobs[e.job];
      && |s'.place| == |s'.injected|
      && job.pending[0].copy in Holding(s, job.node, job.pending[0].id)
      && job.pending[0].copy !in Holding(s', job.node, job.pending[0].id)
  {
    assert JobOk(s, e.job, s.jobs[e.job]);
  }

  lemma SpendLog(isPeerId: Bytes -> bool, s: Net, e: Event)
    requires Enabled(s, e) && (e.Hand? || e.Forward?)
    ensures var job, s' := s.jobs[e.job], Step(isPeerId, s, e);
      && job.node in s'.nodes
      && forall id ::
        HandedCount(s'.nodes[job.node].log.handed, id) + SentCount(s'.nodes[job.node].log.sent, id) ==
        HandedCount(s.nodes[job.node].log.handed, id) + SentCount(s.nodes[job.node].log.sent, id) + Bit(job.pending[0].id == id)
  {
    var job := s.jobs[e.job];
    var log := s.nodes[job.node].log;
    if e.Hand? {
      assert (log.handed + [Handing(job.recipient, job.pending[0])])[..|log.handed|] == log.handed;
    } else {
      assert (log.sent + [Flight(job.stage.via, job.pending[0])])[..|log.sent|] == log.sent;
    }
  }

  lemma {:induction false} StepAffordable(isPeerId: Bytes -> bool, s: Net, e: Event, n: PeerId, id: PacketId)
    requires Located(s) && Enabled(s, e) && n in s.nodes && Affordable(s, n, id)
    ensures var s' := Step(isPeerId, s, e); |s'.place| == |s'.injected| && n in s'.nodes && Affordable(s', n, id)
  {
    StepMisses(isPeerId, s, e, n, id);
    StepHolding(isPeerId, s, e, n, id);
    if (e.Hand? || e.Forward?) && s.jobs[e.job].node == n {
      SpendAffordable(isPeerId, s, e, id);
    } else {
      var gain := if Accepted(s, e, n, id) then {Routed(s, e).value.1.copy} else {};
      StepLog(isPeerId, s, e, n);
      SubsetCard(Holding(Step(isPeerId, s, e), n, id), Holding(s, n, id) + gain);
    }
  }

  lemma {:induction false} SpendAffordable(isPeerId: Bytes -> bool, s: Net, e: Event, id: PacketId)
    requires Located(s) && Enabled(s, e) && (e.Hand? || e.Forward?) && Affordable(s, s.jobs[e.job].node, id)
    ensures var s', n := Step(isPeerId, s, e), s.jobs[e.job].node;
      |s'.place| == |s'.injected| && n in s'.nodes && Affordable(s', n, id)
  {
    var s', n, p := Step(isPeerId, s, e), s.jobs[e.job].node, s.jobs[e.job].pending[0];
    StepMisses(isPeerId, s, e, n, id);
    QuietStepHolding(isPeerId, s, e, n, id);
    SpendLog(isPeerId, s, e);
    SpendHolding(isPeerId, s, e);
    SubsetCard(Holding(s', n, id), if p.id == id then Holding(s, n, id) - {p.copy} else Holding(s, n, id));
  }

  lemma {:induction false} StepBudget(isPeerId: Bytes -> bool, s: Net, e: Event)
    requires Located(s) && Budget(s) && Enabled(s, e)
    ensures Budget(Step(isPeerId, s, e))
  {
    var s' := Step(isPeerId, s, e);
    StepFrame(isPeerId, s, e);
    assert |s'.place| == |s'.injected| by {
      StepOk(isPeerId, s, e);
    }
    forall n, id | n in s'.nodes ensures Affordable(s', n, id) {
      StepAffordable(isPeerId, s, e, n, id);
    }
  }

  // ----- Acceptances of one ID are more than the TTL apart -----

  ghost predicate IdTimed(x: Node, id: PacketId) {
    var m := Misses(x.log.accepts, id);
    && (forall i :: 0 <= i < |m| ==> m[i] <= x.now)
    && (forall i, k :: 0 <= i < k < |m| ==> m[k] - m[i] > Dedup.TTL)
    && (forall i :: 0 <= i < |m| ==> (id in x.dedup && m[i] <= x.dedup[id]) || x.now - m[i] > Dedup.TTL)
    && (id !in x.log.evicted ==> |m| == Bit(id in x.dedup))
    && (id in x.dedup ==> m != [] && m[|m| - 1] == x.dedup[id])
  }

  ghost predicate Timed(s: Net) {
    forall n, id :: n in s.nodes ==> IdTimed(s.nodes[n], id)
  }

  lemma RouteDedup(isPeerId: Bytes -> bool, s: Net, m: PeerId, p: Packet, j: nat, n: PeerId)
    requires n in s.nodes && m in s.nodes && p.copy < |s.place|
    ensures var x, x' := s.nodes[n], Route(isPeerId, s, m, p, j).nodes[n];
      && x'.now == x.now && x'.log.evicted == x.log.evicted
      && x'.dedup == if m == n && p.id !in x.dedup then x.dedup[p.id := x.now] else x.dedup
  {
  }

  /** What a step does to the dedup map of node `n`. */
  lemma {:induction false} StepDedup(isPeerId: Bytes -> bool, s: Net, e: Event, n: PeerId)
    requires Enabled(s, e) && n in s.nodes
    ensures n in Step(isPeerId, s, e).nodes
    ensures var x, x', r := s.nodes[n], Step(isPeerId, s, e).nodes[n], Routed(s, e);
      if e == Local(n, EvictIds) then x' == EvictNode(x)
      else
        && x'.log.evicted == x.log.evicted
        && x.now <= x'.now
        && x'.dedup == if r.Some? && r.value.0 == n && r.value.1.id !in x.dedup then x.dedup[r.value.1.id := x.now] else x.dedup
  {
    match e
    case Inject(m, p, j) => RouteDedup(isPeerId, Admit(s, p), m, p, j, n);
    case Receive(f, j) => RouteDedup(isPeerId, Land(s, f), s.flights[f].dst, s.flights[f].pkt, j, n);
    case Local(m, a) =>
    case _ => QuietNode(isPeerId, s, e, n);
  }

  lemma {:induction false} StepTimed(isPeerId: Bytes -> bool, s: Net, e: Event, n: PeerId, id: PacketId)
    requires Enabled(s, e) && n in s.nodes && IdTimed(s.nodes[n], id)
    ensures n in Step(isPeerId, s, e).nodes && IdTimed(Step(isPeerId, s, e).nodes[n], id)
  {
    StepMisses(isPeerId, s, e, n, id);
    StepDedup(isPeerId, s, e, n);
    NextTimed(s.nodes[n], Step(isPeerId, s, e).nodes[n], id, Accepted(s, e, n, id));
  }

  /** A miss at `now`, when all others are over the TTL past. */
  lemma NextMiss(m: seq<Time>, now: Time)
    requires forall i :: 0 <= i < |m| ==> now - m[i] > Dedup.TTL
    requires forall i, k :: 0 <= i < k < |m| ==> m[k] - m[i] > Dedup.TTL
    ensures var m' := m + [now];
      && (forall i :: 0 <= i < |m'| ==> m'[i] <= now)
      && (forall i, k :: 0 <= i < k < |m'| ==> m'[k] - m'[i] > Dedup.TTL)
      && m'[|m'| - 1] == now && |m'| == |m| + 1
  {
  }

  /** The clock moves on, and `id` is accepted, evicted or left alone. */
  lemma NextTimed(x: Node, x': Node, id: PacketId, accepted: bool)
    requires IdTimed(x, id) && x.now <= x'.now
    requires Misses(x'.log.accepts, id) == Misses(x.log.accepts, id) + if accepted then [x.now] else []
    requires accepted ==> id !in x.dedup && id in x'.dedup && x'.dedup[id] == x.now && x'.log.evicted == x.log.evicted
    requires !accepted && id in x'.dedup ==> id in x.dedup && x'.dedup[id] == x.dedup[id]
    requires !accepted && id in x.dedup && id !in x'.dedup ==> x'.now - x.dedup[id] > Dedup.TTL && id in x'.log.evicted
    requires x.log.evicted <= x'.log.evicted
    ensures IdTimed(x', id)
  {
    var m := Misses(x.log.accepts, id);
    if accepted {
      NextMiss(m, x.now);
    }
  }

  // ----- Over whole runs -----

  /** Nothing is ever sent by a node to itself. */
  ghost predicate NoSelfSend(s: Net) {
    forall n, i :: n in s.nodes && 0 <= i < |s.nodes[n].log.sent| ==> s.nodes[n].log.sent[i].dst != n
  }

  lemma StepNoSelfSend(isPeerId: Bytes -> bool, s: Net, e: Event)
    requires Located(s) && NoSelfSend(s) && Enabled(s, e)
    ensures NoSelfSend(Step(isPeerId, s, e))
  {
    var s' := Step(isPeerId, s, e);
    StepFrame(isPeerId, s, e);
    forall n, i | n in s'.nodes && 0 <= i < |s'.nodes[n].log.sent| ensures s'.nodes[n].log.sent[i].dst != n {
      if (e.Hand? || e.Forward?) && s.jobs[e.job].node == n {
        assert JobOk(s, e.job, s.jobs[e.job]);
      } else {
        StepLog(isPeerId, s, e, n);
      }
    }
  }

  ghost predicate Bounded(s: Net) {
    Located(s) && Budget(s) && Timed(s) && NoSelfSend(s)
  }

  lemma StepBounded(isPeerId: Bytes -> bool, s: Net, e: Event)
    requires Bounded(s) && Enabled(s, e)
    ensures Bounded(Step(isPeerId, s, e))
  {
    StepOk(isPeerId, s, e);
    StepBudget(isPeerId, s, e);
    StepNoSelfSend(isPeerId, s, e);
    StepFrame(isPeerId, s, e);
    forall n, id | n in Step(isPeerId, s, e).nodes ensures IdTimed(Step(isPeerId, s, e).nodes[n], id) {
      StepTimed(isPeerId, s, e, n, id);
    }
  }

  lemma {:induction false} RunBounded(isPeerId: Bytes -> bool, s: Net, es: seq<Event>)
    requires Bounded(s) && Runs(isPeerId, s, es)
    ensures Bounded(Run(isPeerId, s, es))
    decreases |es|
  {
    if es != [] {
      StepBounded(isPeerId, s, es[0]);
      RunBounded(isPeerId, Step(isPeerId, s, es[0]), es[1..]);
    }
  }

  lemma InitBounded(s: Net)
    requires Init(s)
    ensures Bounded(s)
  {
  }

  lemma {:induction false} GapsAddUp(m: seq<Time>, k: nat)
    requires 1 < k <= |m|
    requires forall i, j :: 0 <= i < j < |m| ==> m[j] - m[i] > Dedup.TTL
    ensures m[|m| - 1] - m[0] > Dedup.TTL * (k - 1)
  {
    if k > 2 {
      GapsAddUp(m[..|m| - 1], k - 1);
    }
  }

  lemma BoundedNode(s: Net, n: PeerId, id: PacketId)
    requires Bounded(s) && n in s.nodes
    ensures var log := s.nodes[n].log; var m, k := Misses(log.accepts, id), HandedCount(log.handed, id);
      && k + SentCount(log.sent, id) <= |m|
      && (forall i, j :: 0 <= i < j < |m| ==> m[j] - m[i] > Dedup.TTL)
      && (k >= 2 ==> m[|m| - 1] - m[0] > Dedup.TTL * (k - 1))
      && (id !in log.evicted ==> |m| <= 1)
  {
    assert Affordable(s, n, id) && IdTimed(s.nodes[n], id);
    if HandedCount(s.nodes[n].log.handed, id) >= 2 {
      GapsAddUp(Misses(s.nodes[n].log.accepts, id), HandedCount(s.nodes[n].log.handed, id));
    }
  }

  /**
    However the network misbehaves, a node hands one packet ID to its apps k times only after k dedup
    misses of that ID, any two more than 10 s apart, so over more than 10 (k - 1) seconds.
   */
  lemma {:induction false} BoundedDuplication(isPeerId: Bytes -> bool, s: Net, es: seq<Event>, n: PeerId, id: PacketId)
    requires Init(s) && Runs(isPeerId, s, es) && n in Run(isPeerId, s, es).nodes
    ensures var log := Run(isPeerId, s, es).nodes[n].log; var m, k := Misses(log.accepts, id), HandedCount(log.handed, id);
      && k <= |m|
      && (forall i, j :: 0 <= i < j < |m| ==> m[j] - m[i] > 10 * SECOND)
      && (k >= 2 ==> m[|m| - 1] - m[0] > 10 * SECOND * (k - 1))
  {
    InitBounded(s);
    RunBounded(isPeerId, s, es);
    BoundedNode(Run(isPeerId, s, es), n, id);
  }

  /**
    Whatever the route tables are and however they change, even in a cycle, a node forwards an ID at
    most once per dedup miss, hence at most once while the ID has not been evicted there, and never to itself.
   */
  lemma {:induction false} ForwardingStops(isPeerId: Bytes -> bool, s: Net, es: seq<Event>, n: PeerId, id: PacketId)
    requires Init(s) && Runs(isPeerId, s, es) && n in Run(isPeerId, s, es).nodes
    ensures var log := Run(isPeerId, s, es).nodes[n].log;
      && SentCount(log.sent, id) <= |Misses(log.accepts, id)|
      && (id !in log.evicted ==> SentCount(log.sent, id) <= 1)
      && (forall i :: 0 <= i < |log.sent| ==> log.sent[i].dst != n)
  {
    InitBounded(s);
    RunBounded(isPeerId, s, es);
    BoundedNode(Run(isPeerId, s, es), n, id);
  }

  /** The forwards of `id` made by a set of nodes. */
  ghost function TotalSent(s: Net, ns: set<PeerId>, id: PacketId): nat
    requires ns <= s.nodes.Keys
  {
    if ns == {} then 0 else var n :| n in ns; SentCount(s.nodes[n].log.sent, id) + TotalSent(s, ns - {n}, id)
  }

  /** Until an ID is evicted somewhere, the whole network forwards it at most once per node. */
  lemma {:induction false} NetworkForwards(isPeerId: Bytes -> bool, s: Net, es: seq<Event>, ns: set<PeerId>, id: PacketId)
    requires Init(s) && Runs(isPeerId, s, es) && ns <= Run(isPeerId, s, es).nodes.Keys
    requires forall n :: n in ns ==> id !in Run(isPeerId, s, es).nodes[n].log.evicted
    ensures TotalSent(Run(isPeerId, s, es), ns, id) <= |ns|
    decreases ns
  {
    if ns != {} {
      var n :| n in ns && TotalSent(Run(isPeerId, s, es), ns, id) ==
        SentCount(Run(isPeerId, s, es).nodes[n].log.sent, id) + TotalSent(Run(isPeerId, s, es), ns - {n}, id);
      ForwardingStops(isPeerId, s, es, n, id);
      NetworkForwards(isPeerId, s, es, ns - {n}, id);
    }
  }
}
