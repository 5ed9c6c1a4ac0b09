/** Every step keeps every copy in exactly one place. */
module RelayConservation {
  import opened Common
  import opened Queue
  import opened Relay
  import Dedup
  import Router

  /** A copy between two places of one atomic step. */
  ghost predicate Adrift(s: Net, p: Packet) {
    Located(s) && Known(s, p) && s.place[p.copy] == Transit
  }

  predicate Final(place: Place) {
    !place.Transit? && !place.Waiting? && !place.Held? && !place.InFlight?
  }

  lemma AdmitOk(s: Net, p: Packet)
    requires Located(s) && p.copy == |s.injected|
    ensures Adrift(Admit(s, p), p)
  {
    var s' := Admit(s, p);
    FrameQueues(s, s');
    FrameJobs(s, s');
    FrameFlights(s, s');
    FrameHanded(s, s');
  }

  lemma LandFlights(s: Net, f: nat)
    requires FlightsOk(s) && f in s.flights
    ensures FlightsOk(Land(s, f))
  {
  }

  lemma LandOk(s: Net, f: nat)
    requires Located(s) && f in s.flights
    ensures Adrift(Land(s, f), s.flights[f].pkt)
  {
    var s' := Land(s, f);
    LandFlights(s, f);
    FrameQueues(s, s');
    FrameJobs(s, s');
    FrameHanded(s, s');
  }

  lemma MarkOk(s: Net, p: Packet, place: Place)
    requires Adrift(s, p) && Final(place) && !place.Delivered?
    ensures Located(Mark(s, p, place))
  {
    var s' := Mark(s, p, place);
    FrameQueues(s, s');
    FrameJobs(s, s');
    FrameFlights(s, s');
    FrameHanded(s, s');
  }

  /** Changes to a node's clock, dedup map, routes, apps and other logs move nothing. */
  lemma NodeOk(s: Net, n: PeerId, x: Node)
    requires Located(s) && n in s.nodes
    requires x.queue == s.nodes[n].queue && x.log.handed == s.nodes[n].log.handed
    ensures Located(s.(nodes := s.nodes[n := x]))
  {
    var s' := s.(nodes := s.nodes[n := x]);
    FrameQueues(s, s');
    FrameJobs(s, s');
    FrameFlights(s, s');
    FrameHanded(s, s');
  }

  lemma PopJobs(s: Net, j: nat)
    requires JobsOk(s) && Working(s, j)
    ensures JobsOk(Pop(s, j)) && Sized(Pop(s, j)) && Known(s, s.jobs[j].pending[0])
  {
    var s' := Pop(s, j);
    var p := s.jobs[j].pending[0];
    assert JobOk(s, j, s.jobs[j]);
    assert Known(s, p);
    forall i | i in s'.jobs ensures JobOk(s', i, s'.jobs[i]) {
      assert JobOk(s, i, s.jobs[i]);
    }
  }

  lemma PopOk(s: Net, j: nat)
    requires Located(s) && Working(s, j)
    ensures Adrift(Pop(s, j), s.jobs[j].pending[0])
  {
    var s' := Pop(s, j);
    PopJobs(s, j);
    assert JobOk(s, j, s.jobs[j]);
    FrameQueues(s, s');
    FrameFlights(s, s');
    FrameHanded(s, s');
  }

  function Start(s: Net, p: Packet, n: PeerId, j: nat): Net
    requires p.copy < |s.place|
  {
    Mark(s, p, Held(n, j)).(jobs := s.jobs[j := Job(n, p.recipient, [p], Picking)])
  }

  lemma StartOk(s: Net, p: Packet, n: PeerId, j: nat)
    requires Adrift(s, p) && n in s.nodes && j !in s.jobs
    ensures Located(Start(s, p, n, j))
  {
    var s' := Start(s, p, n, j);
    StartJobs(s, p, n, j);
    FrameQueues(s, s');
    FrameFlights(s, s');
    FrameHanded(s, s');
  }

  lemma StartJobs(s: Net, p: Packet, n: PeerId, j: nat)
    requires JobsOk(s) && Known(s, p) && s.place[p.copy] == Transit && n in s.nodes && j !in s.jobs
    ensures JobsOk(Start(s, p, n, j))
  {
    var s' := Start(s, p, n, j);
    forall i | i in s'.jobs ensures JobOk(s', i, s'.jobs[i]) {
      assert i != j ==> JobOk(s, i, s.jobs[i]);
    }
  }

  lemma {:induction false} RouteOk(isPeerId: Bytes -> bool, s: Net, n: PeerId, p: Packet, j: nat)
    requires Adrift(s, p) && n in s.nodes && j !in s.jobs
    ensures Located(Route(isPeerId, s, n, p, j))
  {
    var x := s.nodes[n];
    if p.id in x.dedup {
      MarkOk(s, p, Deduped(n));
    } else {
      var x' := x.(dedup := x.dedup[p.id := x.now], log := x.log.(accepts := x.log.accepts + [Accept(p.id, x.now)]));
      NodeOk(s, n, x');
      if isPeerId(p.recipient) {
        StartOk(s.(nodes := s.nodes[n := x']), p, n, j);
      } else {
        MarkOk(s.(nodes := s.nodes[n := x']), p, Rejected(n));
      }
    }
  }

  lemma DeliverOk(s: Net, n: PeerId, app: PeerId, p: Packet)
    requires Adrift(s, p) && n in s.nodes && p.recipient == app
    ensures Located(Deliver(s, n, app, p))
  {
    var s' := Deliver(s, n, app, p);
    FrameQueues(s, s');
    FrameJobs(s, s');
    FrameFlights(s, s');
    DeliverHanded(s, n, app, p);
  }

  lemma DeliverViews(s: Net, n: PeerId, app: PeerId, p: Packet)
    requires n in s.nodes && p.copy < |s.place|
    ensures forall m :: HandedBy(Deliver(s, n, app, p), m) == HandedBy(s, m) + if m == n then [Handing(app, p)] else []
  {
  }

  lemma HandedMore(hs: seq<Handing>, h: Handing, p: Packet)
    ensures WasHanded(hs + [h], p) <==> h.pkt == p || WasHanded(hs, p)
  {
    assert (hs + [h])[..|hs|] == hs;
  }

  lemma DeliverKnown(s: Net, n: PeerId, app: PeerId, p: Packet, m: PeerId, i: nat)
    requires HandedSound(s) && Known(s, p) && s.place[p.copy] == Transit && n in s.nodes && p.recipient == app
    requires i < |HandedBy(Deliver(s, n, app, p), m)|
    ensures var s' := Deliver(s, n, app, p);
      var h := HandedBy(s', m)[i];
      Known(s', h.pkt) && h.pkt.recipient == h.app && s'.place[h.pkt.copy] == Delivered(m)
  {
    DeliverViews(s, n, app, p);
    assert i < |HandedBy(s, m)| ==> HandedBy(Deliver(s, n, app, p), m)[i] == HandedBy(s, m)[i];
  }

  lemma DeliverDistinct(s: Net, n: PeerId, app: PeerId, p: Packet, m: PeerId, i: nat, k: nat)
    requires HandedSound(s) && Known(s, p) && s.place[p.copy] == Transit && n in s.nodes
    requires i < k < |HandedBy(Deliver(s, n, app, p), m)|
    ensures HandedBy(Deliver(s, n, app, p), m)[i].pkt.copy != HandedBy(Deliver(s, n, app, p), m)[k].pkt.copy
  {
    DeliverViews(s, n, app, p);
    assert HandedBy(Deliver(s, n, app, p), m)[i] == HandedBy(s, m)[i];
    assert k < |HandedBy(s, m)| ==> HandedBy(Deliver(s, n, app, p), m)[k] == HandedBy(s, m)[k];
  }

  lemma DeliverSound(s: Net, n: PeerId, app: PeerId, p: Packet)
    requires HandedSound(s) && Known(s, p) && s.place[p.copy] == Transit && n in s.nodes && p.recipient == app
    ensures HandedSound(Deliver(s, n, app, p))
  {
    var s' := Deliver(s, n, app, p);
    forall m, i | 0 <= i < |HandedBy(s', m)|
      ensures var h := HandedBy(s', m)[i]; Known(s', h.pkt) && h.pkt.recipient == h.app && s'.place[h.pkt.copy] == Delivered(m)
    {
      DeliverKnown(s, n, app, p, m, i);
    }
    forall m, i, k | 0 <= i < k < |HandedBy(s', m)| ensures HandedBy(s', m)[i].pkt.copy != HandedBy(s', m)[k].pkt.copy {
      DeliverDistinct(s, n, app, p, m, i, k);
    }
  }

  lemma DeliverHanded(s: Net, n: PeerId, app: PeerId, p: Packet)
    requires HandedOk(s) && Known(s, p) && s.place[p.copy] == Transit && n in s.nodes && p.recipient == app
    ensures HandedOk(Deliver(s, n, app, p))
  {
    var s' := Deliver(s, n, app, p);
    DeliverSound(s, n, app, p);
    forall t | 0 <= t < |s'.place| && s'.place[t].Delivered? ensures WasHanded(HandedBy(s', s'.place[t].node), s'.injected[t]) {
      DeliverViews(s, n, app, p);
      HandedMore(HandedBy(s, n), Handing(app, p), s.injected[t]);
    }
  }

  lemma FlyFlights(s: Net, n: PeerId, f: nat, flight: Flight)
    requires FlightsOk(s) && Known(s, flight.pkt) && s.place[flight.pkt.copy] == Transit && n in s.nodes && f !in s.flights
    ensures FlightsOk(Fly(s, n, f, flight))
  {
  }

  lemma FlyOk(s: Net, n: PeerId, f: nat, flight: Flight)
    requires Adrift(s, flight.pkt) && n in s.nodes && f !in s.flights
    ensures Located(Fly(s, n, f, flight))
  {
    var s' := Fly(s, n, f, flight);
    FlyFlights(s, n, f, flight);
    FrameQueues(s, s');
    FrameJobs(s, s');
    FrameHanded(s, s');
  }

  lemma KeepOk(s: Net, n: PeerId, r: PeerId, p: Packet)
    requires Adrift(s, p) && n in s.nodes && p.recipient == r
    ensures Located(Keep(s, n, r, p))
  {
    if Refuses(BucketOf(s.nodes[n].queue, r), p.sender) {
      MarkOk(s, p, Refused(n));
    } else {
      StoreOk(s, n, r, p);
    }
  }

  lemma {:induction false} StoreOk(s: Net, n: PeerId, r: PeerId, p: Packet)
    requires Adrift(s, p) && n in s.nodes && p.recipient == r
    requires !Refuses(BucketOf(s.nodes[n].queue, r), p.sender)
    ensures Located(Keep(s, n, r, p))
  {
    var s' := Keep(s, n, r, p);
    KeepQueues(s, n, r, p);
    assert s'.jobs == s.jobs && s'.flights == s.flights && s'.injected == s.injected;
    FrameJobs(s, s');
    FrameFlights(s, s');
    FrameHanded(s, s');
  }

  lemma KeepQueues(s: Net, n: PeerId, r: PeerId, p: Packet)
    requires QueuesOk(s) && Known(s, p) && s.place[p.copy] == Transit && n in s.nodes && p.recipient == r
    requires !Refuses(BucketOf(s.nodes[n].queue, r), p.sender)
    ensures QueuesOk(Keep(s, n, r, p))
    ensures forall t :: 0 <= t < |s.place| && t != p.copy ==>
      Keep(s, n, r, p).place[t] == s.place[t] || (s.place[t].Waiting? && Keep(s, n, r, p).place[t] == Superseded(n))
  {
    var s' := Keep(s, n, r, p);
    KeepSlots(s, n, r, p);
    if p.sender in BucketOf(s.nodes[n].queue, r) {
      assert Slot(s, n, r, p.sender) == Some(s.nodes[n].queue[r][p.sender].pkt);
    }
  }

  lemma KeepSlots(s: Net, n: PeerId, r: PeerId, p: Packet)
    requires n in s.nodes && p.copy < |s.place| && !Refuses(BucketOf(s.nodes[n].queue, r), p.sender)
    ensures forall n', r', k ::
      Slot(Keep(s, n, r, p), n', r', k) == if (n', r', k) == (n, r, p.sender) then Some(p) else Slot(s, n', r', k)
  {
  }

  lemma {:induction false} HasAt(ps: seq<Packet>, i: nat)
    requires i < |ps|
    ensures Has(ps, ps[i])
  {
    if i > 0 {
      HasAt(ps[1..], i - 1);
    }
  }

  lemma TakeQueues(s: Net, n: PeerId, r: PeerId, ps: seq<Packet>, j: nat)
    requires QueuesOk(s) && n in s.nodes
    ensures QueuesOk(TakeBucket(s, n, r, ps, j))
  {
    var s' := TakeBucket(s, n, r, ps, j);
    forall n', r', k ensures Slot(s', n', r', k) == if (n', r') == (n, r) then None else Slot(s, n', r', k) {}
  }

  lemma TakePending(s: Net, n: PeerId, r: PeerId, ps: seq<Packet>, j: nat)
    requires QueuesOk(s) && n in s.nodes && Lists(ps, Ready(s.nodes[n], r))
    ensures JobOk(TakeBucket(s, n, r, ps, j), j, Job(n, r, ps, Picking))
  {
    ListsMeans(ps, Ready(s.nodes[n], r));
    forall i | 0 <= i < |ps| ensures Known(s, ps[i]) && ps[i].recipient == r && s.place[ps[i].copy] == Waiting(n, r) {
      assert Slot(s, n, r, ps[i].sender) == Some(ps[i]);
    }
  }

  lemma TakenListed(s: Net, n: PeerId, r: PeerId, ps: seq<Packet>, t: nat)
    requires QueuesOk(s) && n in s.nodes && Lists(ps, Ready(s.nodes[n], r))
    requires t < |s.place| && s.place[t] == Waiting(n, r) && s.injected[t].sender in Ready(s.nodes[n], r)
    ensures ps != [] && Has(ps, s.injected[t])
  {
    var i := ListsAll(ps, Ready(s.nodes[n], r), s.injected[t].sender);
    assert Slot(s, n, r, s.injected[t].sender) == Some(s.injected[t]);
    HasAt(ps, i);
  }

  lemma TakeJobs(s: Net, n: PeerId, r: PeerId, ps: seq<Packet>, j: nat)
    requires QueuesOk(s) && JobsOk(s) && n in s.nodes && j !in s.jobs && Lists(ps, Ready(s.nodes[n], r))
    ensures JobsOk(TakeBucket(s, n, r, ps, j))
  {
    var s' := TakeBucket(s, n, r, ps, j);
    TakePending(s, n, r, ps, j);
    forall i | i in s.jobs ensures JobOk(s', i, s.jobs[i]) {
      assert JobOk(s, i, s.jobs[i]);
    }
    forall t | 0 <= t < |s'.place| && s'.place[t] == Held(n, j) ensures ps != [] && Has(ps, s.injected[t]) {
      TakenListed(s, n, r, ps, t);
    }
  }

  lemma TakeOk(s: Net, n: PeerId, r: PeerId, ps: seq<Packet>, j: nat)
    requires Located(s) && n in s.nodes && j !in s.jobs && Lists(ps, Ready(s.nodes[n], r))
    ensures Located(TakeBucket(s, n, r, ps, j))
  {
    var s' := TakeBucket(s, n, r, ps, j);
    TakeQueues(s, n, r, ps, j);
    TakeJobs(s, n, r, ps, j);
    FrameFlights(s, s');
    FrameHanded(s, s');
  }

  lemma SweepOk(s: Net, n: PeerId)
    requires Located(s) && n in s.nodes
    ensures Located(SweepNode(s, n))
  {
    var s' := SweepNode(s, n);
    FrameJobs(s, s');
    FrameFlights(s, s');
    FrameHanded(s, s');
    SweepQueues(s, n);
  }

  lemma SweepQueues(s: Net, n: PeerId)
    requires QueuesOk(s) && n in s.nodes
    ensures QueuesOk(SweepNode(s, n))
  {
    var s' := SweepNode(s, n);
    var x := s.nodes[n];
    forall n', r, k ensures Slot(s', n', r, k) == if n' == n && k !in Ready(x, r) then None else Slot(s, n', r, k) {}
  }

  lemma StageJobs(s: Net, j: nat, stage: Stage)
    requires JobsOk(s) && j in s.jobs && (stage.Sending? ==> stage.via != s.jobs[j].node)
    ensures JobsOk(SetStage(s, j, stage))
  {
    var s' := SetStage(s, j, stage);
    forall i | i in s'.jobs ensures JobOk(s', i, s'.jobs[i]) {
      assert JobOk(s, i, s.jobs[i]);
    }
  }

  lemma StageOk(s: Net, j: nat, stage: Stage)
    requires Located(s) && j in s.jobs && (stage.Sending? ==> stage.via != s.jobs[j].node)
    ensures Located(SetStage(s, j, stage))
  {
    var s' := SetStage(s, j, stage);
    StageJobs(s, j, stage);
    FrameQueues(s, s');
    FrameFlights(s, s');
    FrameHanded(s, s');
  }

  lemma FinishOk(s: Net, j: nat)
    requires Located(s) && j in s.jobs && s.jobs[j].pending == []
    ensures Located(s.(jobs := s.jobs - {j}))
  {
    var s' := s.(jobs := s.jobs - {j});
    forall i | i in s'.jobs ensures JobOk(s', i, s'.jobs[i]) {
      assert JobOk(s, i, s.jobs[i]);
    }
    FrameQueues(s, s');
    FrameFlights(s, s');
    FrameHanded(s, s');
  }

  lemma HandOk(s: Net, j: nat)
    requires Located(s) && Working(s, j)
    ensures Located(Deliver(Pop(s, j), s.jobs[j].node, s.jobs[j].recipient, s.jobs[j].pending[0]))
  {
    PopOk(s, j);
    assert JobOk(s, j, s.jobs[j]);
    DeliverOk(Pop(s, j), s.jobs[j].node, s.jobs[j].recipient, s.jobs[j].pending[0]);
  }

  lemma PutBackOk(s: Net, j: nat)
    requires Located(s) && Working(s, j)
    ensures Located(Keep(Pop(s, j), s.jobs[j].node, s.jobs[j].recipient, s.jobs[j].pending[0]))
  {
    PopOk(s, j);
    assert JobOk(s, j, s.jobs[j]);
    KeepOk(Pop(s, j), s.jobs[j].node, s.jobs[j].recipient, s.jobs[j].pending[0]);
  }

  lemma {:induction false} ForwardOk(s: Net, j: nat, f: nat)
    requires Located(s) && Working(s, j) && s.jobs[j].stage.Sending? && f !in s.flights
    ensures Located(Fly(Pop(s, j), s.jobs[j].node, f, Flight(s.jobs[j].stage.via, s.jobs[j].pending[0])))
  {
    PopOk(s, j);
    FlyOk(Pop(s, j), s.jobs[j].node, f, Flight(s.jobs[j].stage.via, s.jobs[j].pending[0]));
  }

  lemma {:induction false} InjectOk(isPeerId: Bytes -> bool, s: Net, n: PeerId, p: Packet, j: nat)
    requires Located(s) && n in s.nodes && j !in s.jobs && p.copy == |s.injected|
    ensures Located(Route(isPeerId, Admit(s, p), n, p, j))
  {
    AdmitOk(s, p);
    RouteOk(isPeerId, Admit(s, p), n, p, j);
  }

  lemma {:induction false} ReceiveOk(isPeerId: Bytes -> bool, s: Net, f: nat, j: nat)
    requires Located(s) && f in s.flights && s.flights[f].dst in s.nodes && j !in s.jobs
    ensures Located(Route(isPeerId, Land(s, f), s.flights[f].dst, s.flights[f].pkt, j))
  {
    LandOk(s, f);
    RouteOk(isPeerId, Land(s, f), s.flights[f].dst, s.flights[f].pkt, j);
  }

  lemma LoseOk(s: Net, f: nat)
    requires Located(s) && f in s.flights
    ensures Located(Mark(Land(s, f), s.flights[f].pkt, Lost))
  {
    LandOk(s, f);
    MarkOk(Land(s, f), s.flights[f].pkt, Lost);
  }

  /** Whatever step is taken, every copy stays where the network says it is. */
  lemma {:induction false} StepOk(isPeerId: Bytes -> bool, s: Net, e: Event)
    requires Located(s) && Enabled(s, e)
    ensures Located(Step(isPeerId, s, e))
  {
    match e
    case Inject(n, p, j) => InjectOk(isPeerId, s, n, p, j);
    case Receive(f, j) => ReceiveOk(isPeerId, s, f, j);
    case Lose(f) => LoseOk(s, f);
    case Flush(n, r, ps, j) => TakeOk(s, n, r, ps, j);
    case SweepQueue(n) => SweepOk(s, n);
    case Local(n, a) => NodeOk(s, n, Acted(s.nodes[n], a));
    case _ => JobStepOk(isPeerId, s, e);
  }

  lemma {:induction false} JobStepOk(isPeerId: Bytes -> bool, s: Net, e: Event)
    requires Located(s) && Enabled(s, e) && (e.Pick? || e.Find? || e.Hand? || e.PutBack? || e.Forward? || e.Finish?)
    ensures Located(Step(isPeerId, s, e))
  {
    match e
    case Pick(j) => StageOk(s, j, if s.jobs[j].recipient in s.nodes[s.jobs[j].node].apps then Delivering else Finding);
    case Find(j) =>
      var job := s.jobs[j];
      var via := Router.Lookup(s.nodes[job.node].routes, job.recipient, s.nodes[job.node].now);
      StageOk(s, j, if via.None? || via.value == job.node then Returning else Sending(via.value));
    case Hand(j) => HandOk(s, j);
    case PutBack(j) => PutBackOk(s, j);
    case Forward(j, f) => ForwardOk(s, j, f);
    case Finish(j) => FinishOk(s, j);
  }
}
