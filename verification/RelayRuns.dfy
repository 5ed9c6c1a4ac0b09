/** Packet conservation and delivery to the addressee, over every interleaved run of any number of nodes. */
module RelayRuns {
  import opened Common
  import opened Queue
  import opened Relay
  import opened RelayConservation

  /** Nothing sent and nothing learned yet; clocks are arbitrary. */
  ghost predicate Init(s: Net) {
    && s.injected == [] && s.place == [] && s.jobs == map[] && s.flights == map[]
    && forall n :: n in s.nodes ==>
      && s.nodes[n].queue == map[] && s.nodes[n].dedup == map[] && s.nodes[n].apps == {} && s.nodes[n].routes == map[]
      && s.nodes[n].log == Log([], [], [], {})
  }

  ghost predicate Runs(isPeerId: Bytes -> bool, s: Net, es: seq<Event>)
    decreases |es|
  {
    es != [] ==> Enabled(s, es[0]) && Runs(isPeerId, Step(isPeerId, s, es[0]), es[1..])
  }

  ghost function Run(isPeerId: Bytes -> bool, s: Net, es: seq<Event>): Net
    requires Runs(isPeerId, s, es)
    decreases |es|
  {
    if es == [] then s else Run(isPeerId, Step(isPeerId, s, es[0]), es[1..])
  }

  /** The state in which step `k` of a run is taken. */
  ghost function At(isPeerId: Bytes -> bool, s: Net, es: seq<Event>, k: nat): Net
    requires Runs(isPeerId, s, es) && k <= |es|
    decreases |es|
  {
    if k == 0 then s else At(isPeerId, Step(isPeerId, s, es[0]), es[1..], k - 1)
  }

  // ----- The life of one copy -----

  /** The only ways a step moves a copy. */
  predicate Moves(a: Place, b: Place) {
    || a == b
    || (a.Waiting? && (b.Held? || b.Expired? || b.Superseded?) && b.node == a.node)
    || (a.Held? && (b.Delivered? || b.Waiting? || b.Refused?) && b.node == a.node)
    || (a.Held? && b.InFlight?)
    || (a.InFlight? && (b.Lost? || b.Deduped? || b.Rejected? || b.Held?))
  }

  /** Every old copy moves lawfully and every new one has been deduped, rejected or picked up by a job. */
  ghost predicate Lawful(before: seq<Place>, after: seq<Place>) {
    && |before| <= |after|
    && (forall t :: 0 <= t < |before| ==> Moves(before[t], after[t]))
    && (forall t :: |before| <= t < |after| ==> after[t].Deduped? || after[t].Rejected? || after[t].Held?)
  }

  /** No copy arrives anywhere: none is new and none comes off a stream into a job. */
  ghost predicate NoArrival(before: seq<Place>, after: seq<Place>) {
    |before| == |after| && forall t :: 0 <= t < |before| && before[t].InFlight? ==> !after[t].Held?
  }

  lemma RoutePlace(isPeerId: Bytes -> bool, s: Net, n: PeerId, p: Packet, j: nat)
    requires n in s.nodes && p.copy < |s.place|
    ensures Route(isPeerId, s, n, p, j).place == s.place[p.copy :=
      if p.id in s.nodes[n].dedup then Deduped(n) else if isPeerId(p.recipient) then Held(n, j) else Rejected(n)]
  {
  }

  lemma InjectLawful(isPeerId: Bytes -> bool, s: Net, n: PeerId, p: Packet, j: nat)
    requires n in s.nodes && p.copy == |s.place|
    ensures Lawful(s.place, Route(isPeerId, Admit(s, p), n, p, j).place)
  {
    RoutePlace(isPeerId, Admit(s, p), n, p, j);
  }

  lemma ReceiveLawful(isPeerId: Bytes -> bool, s: Net, f: nat, j: nat)
    requires FlightsOk(s) && f in s.flights && s.flights[f].dst in s.nodes
    ensures Lawful(s.place, Route(isPeerId, Land(s, f), s.flights[f].dst, s.flights[f].pkt, j).place)
  {
    RoutePlace(isPeerId, Land(s, f), s.flights[f].dst, s.flights[f].pkt, j);
  }

  lemma LoseLawful(s: Net, f: nat)
    requires FlightsOk(s) && f in s.flights
    ensures Lawful(s.place, Mark(Land(s, f), s.flights[f].pkt, Lost).place)
    ensures NoArrival(s.place, Mark(Land(s, f), s.flights[f].pkt, Lost).place)
  {
  }

  lemma PutBackLawful(s: Net, j: nat, s': Net)
    requires QueuesOk(s) && JobsOk(s) && Working(s, j)
    requires s' == Keep(Pop(s, j), s.jobs[j].node, s.jobs[j].recipient, s.jobs[j].pending[0])
    ensures Lawful(s.place, s'.place) && NoArrival(s.place, s'.place)
  {
    var job := s.jobs[j];
    var p := job.pending[0];
    assert JobOk(s, j, job);
    var b := BucketOf(s.nodes[job.node].queue, job.recipient);
    if p.sender in b {
      assert Slot(s, job.node, job.recipient, p.sender) == Some(b[p.sender].pkt);
    }
  }

  lemma TakeLawful(s: Net, n: PeerId, r: PeerId, ps: seq<Packet>, j: nat)
    requires n in s.nodes && |s.place| == |s.injected|
    ensures Lawful(s.place, TakeBucket(s, n, r, ps, j).place) && NoArrival(s.place, TakeBucket(s, n, r, ps, j).place)
  {
  }

  lemma SweepLawful(s: Net, n: PeerId)
    requires n in s.nodes && |s.place| == |s.injected|
    ensures Lawful(s.place, SweepNode(s, n).place) && NoArrival(s.place, SweepNode(s, n).place)
  {
  }

  /** Every step of the protocol moves copies lawfully, and only injection and receipt bring a copy to a node. */
  lemma {:induction false} StepLawful(isPeerId: Bytes -> bool, s: Net, e: Event)
    requires Located(s) && Enabled(s, e)
    ensures Lawful(s.place, Step(isPeerId, s, e).place)
    ensures !e.Inject? && !e.Receive? ==> NoArrival(s.place, Step(isPeerId, s, e).place)
  {
    match e
    case Inject(n, p, j) => InjectLawful(isPeerId, s, n, p, j);
    case Receive(f, j) => ReceiveLawful(isPeerId, s, f, j);
    case Lose(f) => LoseLawful(s, f);
    case Flush(n, r, ps, j) => TakeLawful(s, n, r, ps, j);
    case Hand(j) => HandLawful(s, j);
    case PutBack(j) => PutBackLawful(s, j, Step(isPeerId, s, e));
    case Forward(j, f) => ForwardLawful(s, j, f);
    case SweepQueue(n) => SweepLawful(s, n);
    case _ => assert Step(isPeerId, s, e).place == s.place;
  }

  lemma HandLawful(s: Net, j: nat)
    requires JobsOk(s) && Working(s, j)
    ensures var s' := Deliver(Pop(s, j), s.jobs[j].node, s.jobs[j].recipient, s.jobs[j].pending[0]);
      Lawful(s.place, s'.place) && NoArrival(s.place, s'.place)
  {
  }

  lemma ForwardLawful(s: Net, j: nat, f: nat)
    requires JobsOk(s) && Working(s, j) && s.jobs[j].stage.Sending?
    ensures var s' := Fly(Pop(s, j), s.jobs[j].node, f, Flight(s.jobs[j].stage.via, s.jobs[j].pending[0]));
      Lawful(s.place, s'.place) && NoArrival(s.place, s'.place)
  {
  }

  ghost predicate Settled(s: Net) {
    forall t :: 0 <= t < |s.place| ==> !s.place[t].Transit?
  }

  /** What every run keeps: copies accounted for, none between places, and a final place for ever. */
  ghost predicate Kept(s: Net, s': Net) {
    && Located(s') && Settled(s') && |s.place| <= |s'.place|
    && (forall t :: 0 <= t < |s.place| && Final(s.place[t]) ==> s'.place[t] == s.place[t])
  }

  lemma {:induction false} StepKept(isPeerId: Bytes -> bool, s: Net, e: Event)
    requires Located(s) && Settled(s) && Enabled(s, e)
    ensures Kept(s, Step(isPeerId, s, e))
  {
    StepOk(isPeerId, s, e);
    StepLawful(isPeerId, s, e);
    LawfulKept(s, Step(isPeerId, s, e));
  }

  lemma LawfulKept(s: Net, s': Net)
    requires Settled(s) && Located(s') && Lawful(s.place, s'.place)
    ensures Kept(s, s')
  {
  }

  lemma KeptOn(a: Net, b: Net, c: Net)
    requires Kept(a, b) && Kept(b, c)
    ensures Kept(a, c)
  {
  }

  lemma {:induction false} RunLocated(isPeerId: Bytes -> bool, s: Net, es: seq<Event>)
    requires Located(s) && Settled(s) && Runs(isPeerId, s, es)
    ensures Kept(s, Run(isPeerId, s, es))
    decreases |es|
  {
    if es != [] {
      var s' := Step(isPeerId, s, es[0]);
      StepKept(isPeerId, s, es[0]);
      RunLocated(isPeerId, s', es[1..]);
      KeptOn(s, s', Run(isPeerId, s', es[1..]));
    }
  }

  // ----- Main results -----

  /** The packets apps and streams handed to the network in a run, in order. */
  function Injections(es: seq<Event>): seq<Packet> {
    if es == [] then [] else (if es[0].Inject? then [es[0].pkt] else []) + Injections(es[1..])
  }

  /** Nodes come and go in no step, and only injection makes a new copy. */
  lemma StepFrame(isPeerId: Bytes -> bool, s: Net, e: Event)
    requires Enabled(s, e)
    ensures Step(isPeerId, s, e).nodes.Keys == s.nodes.Keys
    ensures Step(isPeerId, s, e).injected == s.injected + if e.Inject? then [e.pkt] else []
  {
    match e
    case Inject(_, _, _) =>
    case Receive(_, _) =>
    case Lose(_) =>
    case Flush(_, _, _, _) =>
    case Hand(_) =>
    case PutBack(_) =>
    case Forward(_, _) =>
    case SweepQueue(_) =>
    case Local(_, _) =>
    case _ =>
  }

  lemma {:induction false} RunNodes(isPeerId: Bytes -> bool, s: Net, es: seq<Event>)
    requires Runs(isPeerId, s, es)
    ensures Run(isPeerId, s, es).nodes.Keys == s.nodes.Keys
    decreases |es|
  {
    if es != [] {
      StepFrame(isPeerId, s, es[0]);
      RunNodes(isPeerId, Step(isPeerId, s, es[0]), es[1..]);
    }
  }

  lemma {:induction false} RunInjects(isPeerId: Bytes -> bool, s: Net, es: seq<Event>)
    requires Runs(isPeerId, s, es)
    ensures Run(isPeerId, s, es).injected == s.injected + Injections(es)
    decreases |es|
  {
    if es != [] {
      var s' := Step(isPeerId, s, es[0]);
      StepFrame(isPeerId, s, es[0]);
      RunInjects(isPeerId, s', es[1..]);
    }
  }

  ghost predicate InQueue(s: Net, p: Packet) {
    exists n, r, k :: Slot(s, n, r, k) == Some(p)
  }

  ghost predicate InJob(s: Net, p: Packet) {
    exists j :: j in s.jobs && Has(s.jobs[j].pending, p)
  }

  ghost predicate OnStream(s: Net, p: Packet) {
    exists f :: f in s.flights && s.flights[f].pkt == p
  }

  ghost predicate AtApp(s: Net, p: Packet) {
    exists n :: WasHanded(HandedBy(s, n), p)
  }

  /** Lost on a stream, suppressed as a duplicate, replaced, refused at the cap, expired or misaddressed. */
  predicate Drop(place: Place) {
    Final(place) && !place.Delivered?
  }

  function Bit(b: bool): nat {
    if b then 1 else 0
  }

  lemma {:induction false} HasIndex(ps: seq<Packet>, p: Packet) returns (i: nat)
    requires Has(ps, p)
    ensures i < |ps| && ps[i] == p
  {
    i := 0;
    if ps[0] != p {
      var k := HasIndex(ps[1..], p);
      i := k + 1;
    }
  }

  lemma {:induction false} HandedIndex(hs: seq<Handing>, p: Packet) returns (i: nat)
    requires WasHanded(hs, p)
    ensures i < |hs| && hs[i].pkt == p
  {
    i := |hs| - 1;
    if hs[i].pkt != p {
      i := HandedIndex(hs[..i], p);
    }
  }

  /** Where a copy really is, slot by slot, is what its recorded place says. */
  lemma PlaceIsReal(s: Net, t: nat)
    requires Located(s) && t < |s.injected|
    ensures InQueue(s, s.injected[t]) <==> s.place[t].Waiting?
    ensures InJob(s, s.injected[t]) <==> s.place[t].Held?
    ensures OnStream(s, s.injected[t]) <==> s.place[t].InFlight?
    ensures AtApp(s, s.injected[t]) <==> s.place[t].Delivered?
  {
    var p := s.injected[t];
    if InJob(s, p) {
      var j :| j in s.jobs && Has(s.jobs[j].pending, p);
      var i := HasIndex(s.jobs[j].pending, p);
      assert JobOk(s, j, s.jobs[j]);
    }
    if AtApp(s, p) {
      var n :| WasHanded(HandedBy(s, n), p);
      var i := HandedIndex(HandedBy(s, n), p);
      assert HandedBy(s, n)[i].pkt == p;
    }
  }

  lemma OnePlace(s: Net, t: nat)
    requires Located(s) && Settled(s) && t < |s.injected|
    ensures var p := s.injected[t];
      && p.copy == t < |s.place|
      && Bit(InQueue(s, p)) + Bit(InJob(s, p)) + Bit(OnStream(s, p)) + Bit(AtApp(s, p)) + Bit(Drop(s.place[t])) == 1
  {
    PlaceIsReal(s, t);
  }

  /** Every injected copy is in exactly one place: a queue slot, a running job, a stream, an app, or dropped for a recorded reason. */
  lemma {:induction false} Conservation(isPeerId: Bytes -> bool, s: Net, es: seq<Event>, t: nat)
    requires Init(s) && Runs(isPeerId, s, es)
    requires t < |Injections(es)|
    ensures var s', p := Run(isPeerId, s, es), Injections(es)[t];
      && p.copy == t < |s'.place|
      && Bit(InQueue(s', p)) + Bit(InJob(s', p)) + Bit(OnStream(s', p)) + Bit(AtApp(s', p)) + Bit(Drop(s'.place[t])) == 1
  {
    var s' := Run(isPeerId, s, es);
    RunLocated(isPeerId, s, es);
    RunInjects(isPeerId, s, es);
    assert s'.injected == Injections(es);
    OnePlace(s', t);
  }

  /** What an app gets was injected in the run, unchanged, for that very app; and no copy reaches apps twice. */
  lemma {:induction false} ReachesAddresseeUnchanged(isPeerId: Bytes -> bool, s: Net, es: seq<Event>, n: PeerId, i: nat)
    requires Init(s) && Runs(isPeerId, s, es)
    requires i < |HandedBy(Run(isPeerId, s, es), n)|
    ensures var h := HandedBy(Run(isPeerId, s, es), n)[i];
      h.pkt in Injections(es) && h.pkt.recipient == h.app
    ensures forall m, k :: 0 <= k < |HandedBy(Run(isPeerId, s, es), m)| && (m, k) != (n, i) ==>
      HandedBy(Run(isPeerId, s, es), m)[k].pkt != HandedBy(Run(isPeerId, s, es), n)[i].pkt
  {
    RunLocated(isPeerId, s, es);
    RunInjects(isPeerId, s, es);
    HandedOnce(Run(isPeerId, s, es), n, i);
  }

  lemma HandedOnce(s: Net, n: PeerId, i: nat)
    requires HandedOk(s) && i < |HandedBy(s, n)|
    ensures HandedBy(s, n)[i].pkt in s.injected && HandedBy(s, n)[i].pkt.recipient == HandedBy(s, n)[i].app
    ensures forall m, k :: 0 <= k < |HandedBy(s, m)| && (m, k) != (n, i) ==> HandedBy(s, m)[k].pkt != HandedBy(s, n)[i].pkt
  {
    forall m, k | 0 <= k < |HandedBy(s, m)| && (m, k) != (n, i) ensures HandedBy(s, m)[k].pkt != HandedBy(s, n)[i].pkt {
      assert s.place[HandedBy(s, m)[k].pkt.copy] == Delivered(m) && s.place[HandedBy(s, n)[i].pkt.copy] == Delivered(n);
    }
  }
}
