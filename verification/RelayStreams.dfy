/** A forwarded packet's stream leads to the node the route named, and what arrives there came along it (internal/relay/manager.go). */
module RelayStreams {
  import opened Common
  import opened Relay
  import opened RelayConservation
  import opened RelayRuns
  import opened RelayBounds
  import opened RelayHistory
  import opened RelayGuidance
  import Router

  /** Step `e` sends copy `p` from node `n` to node `to`. */
  ghost predicate Sends(s: Net, e: Event, n: PeerId, p: Packet, to: PeerId) {
    && e.Forward? && Working(s, e.job)
    && s.jobs[e.job].node == n && s.jobs[e.job].pending[0] == p && s.jobs[e.job].stage == Sending(to)
  }

  ghost predicate SendsCopy(s: Net, e: Event, copy: nat) {
    e.Forward? && Working(s, e.job) && s.jobs[e.job].pending[0].copy == copy
  }

  lemma RouteFlights(isPeerId: Bytes -> bool, s: Net, n: PeerId, p: Packet, j: nat)
    requires n in s.nodes && p.copy < |s.place|
    ensures Route(isPeerId, s, n, p, j).flights == s.flights
  {
  }

  lemma PutBackFlights(s: Net, j: nat)
    requires Working(s, j)
    ensures Keep(Pop(s, j), s.jobs[j].node, s.jobs[j].recipient, s.jobs[j].pending[0]).flights == s.flights
  {
  }

  /** Streams come from forwards alone, and lead where the forwarding job found the route to lead. */
  lemma {:induction false} StepFlight(isPeerId: Bytes -> bool, s: Net, e: Event, f: nat)
    requires Enabled(s, e) && f in Step(isPeerId, s, e).flights
    ensures var x := Step(isPeerId, s, e).flights[f];
      if e.Forward? && e.flight == f then Sends(s, e, s.jobs[e.job].node, x.pkt, x.dst) else f in s.flights && x == s.flights[f]
  {
    match e
    case Inject(n, p, j) => RouteFlights(isPeerId, Admit(s, p), n, p, j);
    case Receive(i, j) => RouteFlights(isPeerId, Land(s, i), s.flights[i].dst, s.flights[i].pkt, j);
    case PutBack(j) => PutBackFlights(s, j);
    case Forward(_, _) =>
    case _ =>
  }

  /** A copy on a stream is with no job, so no step sends it again. */
  lemma StreamedNotSent(s: Net, e: Event, f: nat)
    requires Located(s) && Enabled(s, e) && f in s.flights
    ensures !SendsCopy(s, e, s.flights[f].pkt.copy)
  {
    if e.Forward? {
      assert JobOk(s, e.job, s.jobs[e.job]);
    }
  }

  /** At step `i` of the run some node sent `x.pkt` to `x.dst`, and nobody has sent that copy since. */
  ghost predicate OpenedAt(isPeerId: Bytes -> bool, s: Net, es: seq<Event>, i: nat, x: Flight)
    requires Runs(isPeerId, s, es)
  {
    && i < |es| && (exists n :: Sends(At(isPeerId, s, es, i), es[i], n, x.pkt, x.dst))
    && forall k :: i < k < |es| ==> !SendsCopy(At(isPeerId, s, es, k), es[k], x.pkt.copy)
  }

  lemma AtPrefix(isPeerId: Bytes -> bool, s: Net, es: seq<Event>, m: nat, k: nat)
    requires Runs(isPeerId, s, es) && k <= m <= |es| && Runs(isPeerId, s, es[..m])
    ensures At(isPeerId, s, es[..m], k) == At(isPeerId, s, es, k)
  {
    AtIsRun(isPeerId, s, es, k);
    AtIsRun(isPeerId, s, es[..m], k);
    assert es[..m][..k] == es[..k];
  }

  lemma {:induction false} OpenedStays(isPeerId: Bytes -> bool, s: Net, es: seq<Event>, m: nat, i: nat, x: Flight)
    requires Runs(isPeerId, s, es) && m + 1 == |es| && Runs(isPeerId, s, es[..m])
    requires OpenedAt(isPeerId, s, es[..m], i, x) && !SendsCopy(At(isPeerId, s, es, m), es[m], x.pkt.copy)
    ensures OpenedAt(isPeerId, s, es, i, x)
  {
    forall k | i <= k < m ensures At(isPeerId, s, es[..m], k) == At(isPeerId, s, es, k) && es[..m][k] == es[k] {
      AtPrefix(isPeerId, s, es, m, k);
    }
  }

  /** Every stream there is was opened at some step of the run. */
  lemma {:induction false} StreamOpened(isPeerId: Bytes -> bool, s: Net, es: seq<Event>, f: nat) returns (i: nat)
    requires Init(s) && Runs(isPeerId, s, es) && f in Run(isPeerId, s, es).flights
    ensures OpenedAt(isPeerId, s, es, i, Run(isPeerId, s, es).flights[f])
  {
    assert es != [];
    var m := |es| - 1;
    RunLast(isPeerId, s, es);
    AtIsRun(isPeerId, s, es, m);
    var s' := At(isPeerId, s, es, m);
    StepFlight(isPeerId, s', es[m], f);
    i := m;
    if !(es[m].Forward? && es[m].flight == f) {
      i := StreamOpened(isPeerId, s, es[..m], f);
      StreamNotSent(isPeerId, s, es[..m], es[m], f);
      OpenedStays(isPeerId, s, es, m, i, s'.flights[f]);
    }
  }

  lemma StreamNotSent(isPeerId: Bytes -> bool, s: Net, es: seq<Event>, e: Event, f: nat)
    requires Init(s) && Runs(isPeerId, s, es) && Enabled(Run(isPeerId, s, es), e) && f in Run(isPeerId, s, es).flights
    ensures !SendsCopy(Run(isPeerId, s, es), e, Run(isPeerId, s, es).flights[f].pkt.copy)
  {
    RunLocated(isPeerId, s, es);
    StreamedNotSent(Run(isPeerId, s, es), e, f);
  }

  // ----- What arrives -----

  /** `p` is at node `n` after being routed there: in a job, suppressed or rejected. */
  predicate ArrivedAt(place: Place, n: PeerId) {
    (place.Held? || place.Deduped? || place.Rejected?) && place.node == n
  }

  /** Step `i` sent `x` from node `n`, and at step `h` before it node `n` found the live route to lead to `x.dst`. */
  ghost predicate SentAlong(isPeerId: Bytes -> bool, s: Net, es: seq<Event>, h: nat, i: nat, n: PeerId, x: Flight)
    requires Runs(isPeerId, s, es)
  {
    && h < i < |es| && n != x.dst && Sends(At(isPeerId, s, es, i), es[i], n, x.pkt, x.dst)
    && Chooses(At(isPeerId, s, es, h), es[h], n, Sending(x.dst), x.pkt)
    && var last := Router.Last(RouteOps(es[..h], n), x.pkt.recipient);
    last.Some? && last.value.via == x.dst && At(isPeerId, s, es, h).nodes[n].now <= last.value.expires
  }

  /** A job that sends was sent there by the route its node had. */
  lemma {:induction false} SendsAlong(isPeerId: Bytes -> bool, s: Net, es: seq<Event>, i: nat, n: PeerId, x: Flight) returns (h: nat)
    requires Init(s) && Runs(isPeerId, s, es) && i < |es| && Sends(At(isPeerId, s, es, i), es[i], n, x.pkt, x.dst)
    ensures SentAlong(isPeerId, s, es, h, i, n, x)
  {
    AtIsRun(isPeerId, s, es, i);
    var a := Run(isPeerId, s, es[..i]);
    assert Has(a.jobs[es[i].job].pending, x.pkt);
    assert Carried(a, n, Sending(x.dst), x.pkt);
    h := RunChooses(isPeerId, s, es[..i], n, Sending(x.dst), x.pkt);
    assert es[..i][..h] == es[..h];
    AtIsRun(isPeerId, s, es, h);
    RunNodes(isPeerId, s, es[..h]);
    TablesAreHistory(isPeerId, s, es[..h], n, x.pkt.recipient);
  }

  lemma {:induction false} ReceiveArrives(isPeerId: Bytes -> bool, s: Net, f: nat, j: nat)
    requires Located(s) && Enabled(s, Receive(f, j))
    ensures var s', x := Step(isPeerId, s, Receive(f, j)), s.flights[f];
      x.pkt.copy < |s'.place| && ArrivedAt(s'.place[x.pkt.copy], x.dst)
  {
    RoutePlace(isPeerId, Land(s, f), s.flights[f].dst, s.flights[f].pkt, j);
  }

  /**
    Over every run: a packet received from a stream is routed at the node the stream led to; the last
    forward of that copy before, at another node, opened the stream; and that node had found, at an
    earlier step, that its live route for the recipient led there.
   */
  lemma {:induction false} ArrivesWhereRouted(isPeerId: Bytes -> bool, s: Net, es: seq<Event>, f: nat, j: nat)
    requires Init(s) && Runs(isPeerId, s, es) && Enabled(Run(isPeerId, s, es), Receive(f, j))
    ensures var s' := Run(isPeerId, s, es);
      var x, s'' := s'.flights[f], Step(isPeerId, s', Receive(f, j));
      && x.pkt.copy < |s''.place| && ArrivedAt(s''.place[x.pkt.copy], x.dst)
      && exists i, h, n :: OpenedAt(isPeerId, s, es, i, x) && SentAlong(isPeerId, s, es, h, i, n, x)
  {
    var x := Run(isPeerId, s, es).flights[f];
    RunLocated(isPeerId, s, es);
    ReceiveArrives(isPeerId, Run(isPeerId, s, es), f, j);
    var i := StreamOpened(isPeerId, s, es, f);
    var n :| Sends(At(isPeerId, s, es, i), es[i], n, x.pkt, x.dst);
    var h := SendsAlong(isPeerId, s, es, i, n, x);
  }

  // ----- Streams and logs -----

  /** The last entry of a log for a copy. */
  function LastSent(sent: seq<Flight>, copy: nat): Option<Flight> {
    if sent == [] then None
    else if sent[|sent| - 1].pkt.copy == copy then Some(sent[|sent| - 1])
    else LastSent(sent[..|sent| - 1], copy)
  }

  ghost predicate Logged(s: Net, x: Flight, n: PeerId) {
    n in s.nodes && n != x.dst && LastSent(s.nodes[n].log.sent, x.pkt.copy) == Some(x)
  }

  lemma SentLog(isPeerId: Bytes -> bool, s: Net, e: Event)
    requires Enabled(s, e) && (e.Hand? || e.Forward?)
    ensures var s', job := Step(isPeerId, s, e), s.jobs[e.job];
      job.node in s'.nodes && s'.nodes[job.node].log.sent ==
        s.nodes[job.node].log.sent + if e.Forward? then [Flight(job.stage.via, job.pending[0])] else []
  {
  }

  /** A log keeps its last entry for a copy that the step does not send. */
  lemma {:induction false} LoggedStays(isPeerId: Bytes -> bool, s: Net, e: Event, x: Flight, n: PeerId)
    requires Enabled(s, e) && Logged(s, x, n) && !SendsCopy(s, e, x.pkt.copy)
    ensures Logged(Step(isPeerId, s, e), x, n)
  {
    if (e.Hand? || e.Forward?) && s.jobs[e.job].node == n {
      SentLog(isPeerId, s, e);
      var sent, sent' := s.nodes[n].log.sent, Step(isPeerId, s, e).nodes[n].log.sent;
      assert e.Forward? ==> sent'[..|sent|] == sent;
      assert e.Hand? ==> sent' == sent;
    } else {
      StepLog(isPeerId, s, e, n);
    }
  }

  lemma {:induction false} LoggedNow(isPeerId: Bytes -> bool, s: Net, e: Event, f: nat)
    requires Located(s) && Enabled(s, e) && e.Forward? && e.flight == f && f in Step(isPeerId, s, e).flights
    ensures Logged(Step(isPeerId, s, e), Step(isPeerId, s, e).flights[f], s.jobs[e.job].node)
  {
    StepFlight(isPeerId, s, e, f);
    SentLog(isPeerId, s, e);
    assert JobOk(s, e.job, s.jobs[e.job]);
  }

  /** In every reachable state each stream is the last one some other node logged for its copy. */
  lemma {:induction false} EveryStreamLogged(isPeerId: Bytes -> bool, s: Net, es: seq<Event>, f: nat) returns (n: PeerId)
    requires Init(s) && Runs(isPeerId, s, es) && f in Run(isPeerId, s, es).flights
    ensures Logged(Run(isPeerId, s, es), Run(isPeerId, s, es).flights[f], n)
  {
    assert es != [];
    var m := |es| - 1;
    RunLast(isPeerId, s, es);
    var s' := Run(isPeerId, s, es[..m]);
    StepFlight(isPeerId, s', es[m], f);
    if es[m].Forward? && es[m].flight == f {
      n := s'.jobs[es[m].job].node;
      RunLocated(isPeerId, s, es[..m]);
      LoggedNow(isPeerId, s', es[m], f);
    } else {
      n := EveryStreamLogged(isPeerId, s, es[..m], f);
      StreamNotSent(isPeerId, s, es[..m], es[m], f);
      LoggedStays(isPeerId, s', es[m], s'.flights[f], n);
    }
  }
}
