/**
  The relay protocol as a transition system: any number of nodes, each with its own clock, running
  manager.go, queue.go, dedup.go and router.go with every lock-protected region as one atomic step.

  A packet accepted by `Route` and a bucket taken by `FlushQueued` are handled by the same code path
  (deliver locally, else look up a route, else put back), so both become a `Job` holding packets.

  `place` is a history variable: for every injected copy it records where the steps say the copy is.
 */
module Relay {
  import opened Common
  import opened Queue
  import Dedup
  import Router

  /** How far a job has got: local table not read, route not read, delivering, putting back, sending. */
  datatype Stage = Picking | Finding | Delivering | Returning | Sending(via: PeerId)

  datatype Job = Job(node: PeerId, recipient: PeerId, pending: seq<Packet>, stage: Stage)

  /** A packet written to a stream. */
  datatype Flight = Flight(dst: PeerId, pkt: Packet)

  /** A packet given to the deliver callback of an app. */
  datatype Handing = Handing(app: PeerId, pkt: Packet)

  datatype Accept = Accept(id: PacketId, at: Time)

  /** A node's history: dedup misses, hand-overs, forwards, evicted IDs. */
  datatype Log = Log(accepts: seq<Accept>, handed: seq<Handing>, sent: seq<Flight>, evicted: set<PacketId>)

  datatype Node = Node(now: Time, dedup: Dedup.Cache, routes: Router.Table, queue: Items, apps: set<PeerId>, log: Log)

  datatype Place =
    | Transit
    | Waiting(node: PeerId, recipient: PeerId)
    | Held(node: PeerId, job: nat)
    | InFlight(flight: nat)
    | Delivered(node: PeerId)
    | Lost
    | Deduped(node: PeerId)
    | Superseded(node: PeerId)
    | Refused(node: PeerId)
    | Expired(node: PeerId)
    | Rejected(node: PeerId)

  datatype Net = Net(nodes: map<PeerId, Node>, jobs: map<nat, Job>, flights: map<nat, Flight>,
                     injected: seq<Packet>, place: seq<Place>)

  // ----- Steps -----

  /** What a node does to itself without moving a packet. */
  datatype Act = Connect(app: PeerId) | Disconnect(app: PeerId) | Reroute(op: Router.Op) | EvictIds | Tick(to: Time)

  datatype Event =
    | Inject(node: PeerId, pkt: Packet, job: nat)
    | Receive(flight: nat, job: nat)
    | Lose(flight: nat)
    | Flush(node: PeerId, recipient: PeerId, pending: seq<Packet>, job: nat)
    | Pick(job: nat)
    | Find(job: nat)
    | Hand(job: nat)
    | PutBack(job: nat)
    | Forward(job: nat, flight: nat)
    | Finish(job: nat)
    | SweepQueue(node: PeerId)
    | Local(node: PeerId, act: Act)

  ghost predicate Enabled(s: Net, e: Event) {
    |s.place| == |s.injected| &&
    match e
    case Inject(n, p, j) => n in s.nodes && j !in s.jobs && p.copy == |s.injected|
    case Receive(f, j) => f in s.flights && s.flights[f].dst in s.nodes && j !in s.jobs && s.flights[f].pkt.copy < |s.place|
    case Lose(f) => f in s.flights && s.flights[f].pkt.copy < |s.place|
    case Flush(n, r, ps, j) => n in s.nodes && j !in s.jobs && Lists(ps, Ready(s.nodes[n], r))
    case Pick(j) => j in s.jobs && s.jobs[j].node in s.nodes && s.jobs[j].stage.Picking?
    case Find(j) => j in s.jobs && s.jobs[j].node in s.nodes && s.jobs[j].stage.Finding?
    case Hand(j) => Working(s, j) && s.jobs[j].stage.Delivering?
    case PutBack(j) => Working(s, j) && (s.jobs[j].stage.Returning? || s.jobs[j].stage.Sending?)
    case Forward(j, f) => Working(s, j) && s.jobs[j].stage.Sending? && f !in s.flights
    case Finish(j) => j in s.jobs && s.jobs[j].pending == []
    case SweepQueue(n) => n in s.nodes
    case Local(n, a) => n in s.nodes && CanAct(s.nodes[n], a)
  }

  /** Table operations happen now, and clocks do not go back. */
  predicate CanAct(x: Node, a: Act) {
    match a
    case Reroute(op) => op.now == x.now
    case Tick(to) => x.now <= to
    case _ => true
  }

  predicate Working(s: Net, j: nat) {
    && j in s.jobs && s.jobs[j].node in s.nodes && s.jobs[j].pending != []
    && s.jobs[j].pending[0].copy < |s.place|
  }

  /** What a flush of `r` would take from the queue now. */
  function Ready(x: Node, r: PeerId): Bucket {
    Unexpired(BucketOf(x.queue, r), x.now)
  }

  /** `isPeerId` says which recipient bytes parse as a peer ID. */
  ghost function Step(isPeerId: Bytes -> bool, s: Net, e: Event): Net
    requires Enabled(s, e)
  {
    match e
    case Inject(n, p, j) => Route(isPeerId, Admit(s, p), n, p, j)
    case Receive(f, j) => Route(isPeerId, Land(s, f), s.flights[f].dst, s.flights[f].pkt, j)
    case Lose(f) => Mark(Land(s, f), s.flights[f].pkt, Lost)
    case Flush(n, r, ps, j) => TakeBucket(s, n, r, ps, j)
    case Pick(j) =>
      var job := s.jobs[j];
      SetStage(s, j, if job.recipient in s.nodes[job.node].apps then Delivering else Finding)
    case Find(j) =>
      var job := s.jobs[j];
      var via := Router.Lookup(s.nodes[job.node].routes, job.recipient, s.nodes[job.node].now);
      SetStage(s, j, if via.None? || via.value == job.node then Returning else Sending(via.value))
    case Hand(j) => Deliver(Pop(s, j), s.jobs[j].node, s.jobs[j].recipient, s.jobs[j].pending[0])
    case PutBack(j) => Keep(Pop(s, j), s.jobs[j].node, s.jobs[j].recipient, s.jobs[j].pending[0])
    case Forward(j, f) => Fly(Pop(s, j), s.jobs[j].node, f, Flight(s.jobs[j].stage.via, s.jobs[j].pending[0]))
    case Finish(j) => s.(jobs := s.jobs - {j})
    case SweepQueue(n) => SweepNode(s, n)
    case Local(n, a) => s.(nodes := s.nodes[n := Acted(s.nodes[n], a)])
  }

  /** A new copy enters the network. */
  function Admit(s: Net, p: Packet): Net {
    s.(injected := s.injected + [p], place := s.place + [Transit])
  }

  /** A copy leaves its stream. */
  function Land(s: Net, f: nat): Net
    requires f in s.flights && s.flights[f].pkt.copy < |s.place|
  {
    s.(flights := s.flights - {f}, place := s.place[s.flights[f].pkt.copy := Transit])
  }

  /** A job lets go of its first packet. */
  function Pop(s: Net, j: nat): Net
    requires Working(s, j)
  {
    s.(jobs := s.jobs[j := s.jobs[j].(pending := s.jobs[j].pending[1..])],
       place := s.place[s.jobs[j].pending[0].copy := Transit])
  }

  function Mark(s: Net, p: Packet, place: Place): Net
    requires p.copy < |s.place|
  {
    s.(place := s.place[p.copy := place])
  }

  /** Manager.Route up to the point where it needs the local table. */
  function Route(isPeerId: Bytes -> bool, s: Net, n: PeerId, p: Packet, j: nat): Net
    requires n in s.nodes && p.copy < |s.place|
  {
    var x := s.nodes[n];
    if p.id in x.dedup then Mark(s, p, Deduped(n))
    else
      var s' := s.(nodes := s.nodes[n := x.(dedup := x.dedup[p.id := x.now],
                                            log := x.log.(accepts := x.log.accepts + [Accept(p.id, x.now)]))]);
      if isPeerId(p.recipient)
      then Mark(s', p, Held(n, j)).(jobs := s.jobs[j := Job(n, p.recipient, [p], Picking)])
      else Mark(s', p, Rejected(n))
  }

  function SetStage(s: Net, j: nat, stage: Stage): Net
    requires j in s.jobs
  {
    s.(jobs := s.jobs[j := s.jobs[j].(stage := stage)])
  }

  /** Queue.Take at the start of a flush; an empty result starts no job. */
  function TakeBucket(s: Net, n: PeerId, r: PeerId, ps: seq<Packet>, j: nat): Net
    requires n in s.nodes && |s.place| == |s.injected|
  {
    var x := s.nodes[n];
    Net(s.nodes[n := x.(queue := x.queue - {r})],
        if ps == [] then s.jobs else s.jobs[j := Job(n, r, ps, Picking)],
        s.flights, s.injected,
        seq(|s.place|, t requires 0 <= t < |s.place| =>
          if s.place[t] != Waiting(n, r) then s.place[t]
          else if s.injected[t].sender in Ready(x, r) then Held(n, j)
          else Expired(n)))
  }

  function SweepNode(s: Net, n: PeerId): Net
    requires n in s.nodes && |s.place| == |s.injected|
  {
    var x := s.nodes[n];
    s.(nodes := s.nodes[n := x.(queue := Sweep(x.queue, x.now))],
       place := seq(|s.place|, t requires 0 <= t < |s.place| =>
         if s.place[t].Waiting? && s.place[t].node == n && s.injected[t].sender !in Ready(x, s.place[t].recipient)
         then Expired(n) else s.place[t]))
  }

  function Deliver(s: Net, n: PeerId, app: PeerId, p: Packet): Net
    requires n in s.nodes && p.copy < |s.place|
  {
    var x := s.nodes[n];
    Mark(s, p, Delivered(n)).(nodes := s.nodes[n := x.(log := x.log.(handed := x.log.handed + [Handing(app, p)]))])
  }

  function Fly(s: Net, n: PeerId, f: nat, flight: Flight): Net
    requires n in s.nodes && flight.pkt.copy < |s.place|
  {
    var x := s.nodes[n];
    Mark(s, flight.pkt, InFlight(f)).(
      nodes := s.nodes[n := x.(log := x.log.(sent := x.log.sent + [flight]))],
      flights := s.flights[f := flight])
  }

  /** Queue.Put: refused at the cap, or stored over whatever the sender had there. */
  function Keep(s: Net, n: PeerId, r: PeerId, p: Packet): Net
    requires n in s.nodes && p.copy < |s.place|
  {
    var x := s.nodes[n];
    var b := BucketOf(x.queue, r);
    if Refuses(b, p.sender) then Mark(s, p, Refused(n))
    else
      var s' := s.(nodes := s.nodes[n := x.(queue := Stored(x.queue, r, p, x.now))]);
      if p.sender in b && b[p.sender].pkt.copy < |s.place|
      then Mark(Mark(s', b[p.sender].pkt, Superseded(n)), p, Waiting(n, r))
      else Mark(s', p, Waiting(n, r))
  }

  function Acted(x: Node, a: Act): Node {
    match a
    case Connect(app) => x.(apps := x.apps + {app})
    case Disconnect(app) => x.(apps := x.apps - {app})
    case Reroute(op) => x.(routes := Router.Apply(x.routes, op))
    case EvictIds => EvictNode(x)
    case Tick(to) => x.(now := to)
  }

  function EvictNode(x: Node): Node {
    var m := Dedup.Evict(x.dedup, Dedup.TTL, x.now);
    x.(dedup := m, log := x.log.(evicted := x.log.evicted + (x.dedup.Keys - m.Keys)))
  }

  // ----- Where the copies are -----

  ghost predicate Known(s: Net, p: Packet) {
    p.copy < |s.injected| && s.injected[p.copy] == p
  }

  ghost predicate Sized(s: Net) {
    |s.place| == |s.injected| && forall t :: 0 <= t < |s.injected| ==> s.injected[t].copy == t
  }

  function Slot(s: Net, n: PeerId, r: PeerId, k: Bytes): Option<Packet> {
    if n in s.nodes && r in s.nodes[n].queue && k in s.nodes[n].queue[r] then Some(s.nodes[n].queue[r][k].pkt) else None
  }

  /** Queue slots hold known packets, filed under their own recipient and sender, exactly where `place` says. */
  ghost predicate QueuesOk(s: Net) {
    && Sized(s)
    && (forall n, r, k {:trigger Slot(s, n, r, k)} :: Slot(s, n, r, k).Some? ==>
      var p := Slot(s, n, r, k).value;
      Known(s, p) && p.recipient == r && p.sender == k && s.place[p.copy] == Waiting(n, r))
    && (forall t :: 0 <= t < |s.place| && s.place[t].Waiting? ==>
      Slot(s, s.place[t].node, s.place[t].recipient, s.injected[t].sender) == Some(s.injected[t]))
  }

  ghost predicate Has(ps: seq<Packet>, p: Packet) {
    ps != [] && (ps[0] == p || Has(ps[1..], p))
  }

  /** Running jobs hold known, distinct packets for their recipient, exactly those `place` says. */
  ghost predicate JobsOk(s: Net) {
    && Sized(s)
    && (forall j :: j in s.jobs ==> JobOk(s, j, s.jobs[j]))
    && (forall t :: 0 <= t < |s.place| && s.place[t].Held? ==>
      && s.place[t].job in s.jobs && s.jobs[s.place[t].job].node == s.place[t].node
      && Has(s.jobs[s.place[t].job].pending, s.injected[t]))
  }

  ghost predicate JobOk(s: Net, j: nat, job: Job)
    requires |s.place| == |s.injected|
  {
    && job.node in s.nodes
    && (job.stage.Sending? ==> job.stage.via != job.node)
    && (forall i :: 0 <= i < |job.pending| ==> var p := job.pending[i];
      Known(s, p) && p.recipient == job.recipient && s.place[p.copy] == Held(job.node, j))
    && (forall i, k :: 0 <= i < k < |job.pending| ==> job.pending[i].copy != job.pending[k].copy)
  }

  ghost predicate FlightsOk(s: Net) {
    && Sized(s)
    && (forall f :: f in s.flights ==> Known(s, s.flights[f].pkt) && s.place[s.flights[f].pkt.copy] == InFlight(f))
    && (forall t :: 0 <= t < |s.place| && s.place[t].InFlight? ==>
      s.place[t].flight in s.flights && s.flights[s.place[t].flight].pkt == s.injected[t])
  }

  function HandedBy(s: Net, n: PeerId): seq<Handing> {
    if n in s.nodes then s.nodes[n].log.handed else []
  }

  ghost predicate WasHanded(hs: seq<Handing>, p: Packet) {
    hs != [] && (hs[|hs| - 1].pkt == p || WasHanded(hs[..|hs| - 1], p))
  }

  /** What apps got are known packets addressed to them, each copy once. */
  ghost predicate HandedSound(s: Net) {
    && Sized(s)
    && (forall n, i {:trigger HandedBy(s, n)[i]} :: 0 <= i < |HandedBy(s, n)| ==> var h := HandedBy(s, n)[i];
      Known(s, h.pkt) && h.pkt.recipient == h.app && s.place[h.pkt.copy] == Delivered(n))
    && (forall n, i, k {:trigger HandedBy(s, n)[i], HandedBy(s, n)[k]} :: 0 <= i < k < |HandedBy(s, n)| ==>
      HandedBy(s, n)[i].pkt.copy != HandedBy(s, n)[k].pkt.copy)
  }

  ghost predicate HandedOk(s: Net) {
    && HandedSound(s)
    && (forall t :: 0 <= t < |s.place| && s.place[t].Delivered? ==> WasHanded(HandedBy(s, s.place[t].node), s.injected[t]))
  }

  ghost predicate Located(s: Net) {
    QueuesOk(s) && JobsOk(s) && FlightsOk(s) && HandedOk(s)
  }

  // ----- What a step leaves alone -----

  /** `s'` knows every copy `s` knows. */
  ghost predicate Extends(s: Net, s': Net) {
    && Sized(s) && Sized(s')
    && |s.injected| <= |s'.injected|
    && (forall t :: 0 <= t < |s.injected| ==> s'.injected[t] == s.injected[t])
  }

  predicate Same(s: Net, s': Net, t: int) {
    0 <= t < |s.place| <= |s'.place| && s.place[t] == s'.place[t]
  }

  lemma FrameQueues(s: Net, s': Net)
    requires QueuesOk(s) && Extends(s, s')
    requires forall t :: 0 <= t < |s'.place| && (s'.place[t].Waiting? || (t < |s.place| && s.place[t].Waiting?)) ==> Same(s, s', t)
    requires forall n, r, k :: Slot(s', n, r, k) == Slot(s, n, r, k)
    ensures QueuesOk(s')
  {
  }

  lemma FrameJobs(s: Net, s': Net)
    requires JobsOk(s) && Extends(s, s')
    requires forall t :: 0 <= t < |s'.place| && (s'.place[t].Held? || (t < |s.place| && s.place[t].Held?)) ==> Same(s, s', t)
    requires s'.jobs == s.jobs && s.nodes.Keys <= s'.nodes.Keys
    ensures JobsOk(s')
  {
  }

  lemma FrameFlights(s: Net, s': Net)
    requires FlightsOk(s) && Extends(s, s')
    requires forall t :: 0 <= t < |s'.place| && (s'.place[t].InFlight? || (t < |s.place| && s.place[t].InFlight?)) ==> Same(s, s', t)
    requires s'.flights == s.flights
    ensures FlightsOk(s')
  {
  }

  lemma FrameHanded(s: Net, s': Net)
    requires HandedOk(s) && Extends(s, s')
    requires forall t :: 0 <= t < |s'.place| && (s'.place[t].Delivered? || (t < |s.place| && s.place[t].Delivered?)) ==> Same(s, s', t)
    requires forall n :: HandedBy(s', n) == HandedBy(s, n)
    ensures HandedOk(s')
  {
  }
}
