/** Packets are handed only to apps that were connected when the node looked, and forwarded only along the route that was then live. */
module RelayGuidance {
  import opened Common
  import opened Relay
  import opened RelayConservation
  import opened RelayRuns
  import opened RelayBounds
  import opened RelayHistory
  import Router

  /** A job at node `n` that is delivering, or sending to some node, has `p` pending. */
  ghost predicate Carried(s: Net, n: PeerId, stage: Stage, p: Packet) {
    exists j :: j in s.jobs && s.jobs[j].node == n && s.jobs[j].stage == stage && Has(s.jobs[j].pending, p)
  }

  /** Step `e` makes a job at node `n` deliver `p` because its recipient is connected, or send it because that is where the route leads. */
  ghost predicate Chooses(s: Net, e: Event, n: PeerId, stage: Stage, p: Packet) {
    && (e.Pick? || e.Find?) && e.job in s.jobs && n in s.nodes
    && s.jobs[e.job].node == n && s.jobs[e.job].recipient == p.recipient && Has(s.jobs[e.job].pending, p)
    && (stage.Delivering? ==> e.Pick? && p.recipient in s.nodes[n].apps)
    && (stage.Sending? ==> e.Find? && stage.via != n && Router.Lookup(s.nodes[n].routes, p.recipient, s.nodes[n].now) == Some(stage.via))
  }

  /** The node has handed over or sent `p`. */
  ghost predicate Done(s: Net, n: PeerId, stage: Stage, p: Packet) {
    n in s.nodes &&
    match stage
    case Delivering => Handing(p.recipient, p) in s.nodes[n].log.handed
    case Sending(via) => Flight(via, p) in s.nodes[n].log.sent
    case _ => false
  }

  /** What job `j` was before a step, if it is past choosing after it. */
  ghost predicate Grew(s: Net, e: Event, j: nat, job': Job) {
    && j in s.jobs
    && var job := s.jobs[j];
    && job'.node == job.node && job'.recipient == job.recipient
    && (job'.pending == job.pending || (job.pending != [] && job'.pending == job.pending[1..]))
    && (job'.stage != job.stage ==> (e.Pick? || e.Find?) && e.job == j && job'.pending == job.pending && job.node in s.nodes)
    && (job'.stage != job.stage && job'.stage.Delivering? ==> e.Pick? && job.recipient in s.nodes[job.node].apps)
    && (job'.stage != job.stage && job'.stage.Sending? ==>
      e.Find? && job'.stage.via != job.node && Router.Lookup(s.nodes[job.node].routes, job.recipient, s.nodes[job.node].now) == Some(job'.stage.via))
  }

  lemma RouteJobs(isPeerId: Bytes -> bool, s: Net, n: PeerId, p: Packet, i: nat, j: nat)
    requires n in s.nodes && p.copy < |s.place|
    requires j in Route(isPeerId, s, n, p, i).jobs && !Route(isPeerId, s, n, p, i).jobs[j].stage.Picking?
    ensures j in s.jobs && Route(isPeerId, s, n, p, i).jobs[j] == s.jobs[j]
  {
  }

  lemma PutBackJobs(s: Net, j: nat)
    requires Working(s, j)
    ensures Keep(Pop(s, j), s.jobs[j].node, s.jobs[j].recipient, s.jobs[j].pending[0]).jobs == Pop(s, j).jobs
  {
  }

  lemma {:induction false} StepJob(isPeerId: Bytes -> bool, s: Net, e: Event, j: nat)
    requires Enabled(s, e) && j in Step(isPeerId, s, e).jobs && !Step(isPeerId, s, e).jobs[j].stage.Picking?
    ensures Grew(s, e, j, Step(isPeerId, s, e).jobs[j])
  {
    match e
    case Inject(m, p, i) => RouteJobs(isPeerId, Admit(s, p), m, p, i, j);
    case Receive(f, i) => RouteJobs(isPeerId, Land(s, f), s.flights[f].dst, s.flights[f].pkt, i, j);
    case PutBack(i) => PutBackJobs(s, i);
    case Flush(_, _, _, _) =>
    case Pick(_) =>
    case Find(_) =>
    case Hand(_) =>
    case Forward(_, _) =>
    case SweepQueue(_) =>
    case _ =>
  }

  lemma {:induction false} StepCarried(isPeerId: Bytes -> bool, s: Net, e: Event, n: PeerId, stage: Stage, p: Packet)
    requires JobsOk(s) && Enabled(s, e) && (stage.Delivering? || stage.Sending?) && Carried(Step(isPeerId, s, e), n, stage, p)
    ensures Carried(s, n, stage, p) || Chooses(s, e, n, stage, p)
  {
    var jobs := Step(isPeerId, s, e).jobs;
    var j :| j in jobs && jobs[j].node == n && jobs[j].stage == stage && Has(jobs[j].pending, p);
    StepJob(isPeerId, s, e, j);
    assert JobOk(s, j, s.jobs[j]);
    assert Has(s.jobs[j].pending, p);
    var i := HasIndex(s.jobs[j].pending, p);
  }

  /** A node's log grows only by what one of its jobs carries. */
  lemma {:induction false} StepDone(isPeerId: Bytes -> bool, s: Net, e: Event, n: PeerId, stage: Stage, p: Packet)
    requires JobsOk(s) && Enabled(s, e) && Done(Step(isPeerId, s, e), n, stage, p)
    ensures Done(s, n, stage, p) || Carried(s, n, stage, p)
  {
    StepFrame(isPeerId, s, e);
    if (e.Hand? || e.Forward?) && s.jobs[e.job].node == n {
      var job := s.jobs[e.job];
      assert JobOk(s, e.job, job);
      assert Has(job.pending, job.pending[0]);
    } else {
      StepLog(isPeerId, s, e, n);
    }
  }

  ghost predicate UnderWay(s: Net, n: PeerId, stage: Stage, p: Packet) {
    Done(s, n, stage, p) || Carried(s, n, stage, p)
  }

  lemma {:induction false} StepUnderWay(isPeerId: Bytes -> bool, s: Net, e: Event, n: PeerId, stage: Stage, p: Packet)
    requires JobsOk(s) && Enabled(s, e) && (stage.Delivering? || stage.Sending?) && UnderWay(Step(isPeerId, s, e), n, stage, p)
    ensures UnderWay(s, n, stage, p) || Chooses(s, e, n, stage, p)
  {
    if Carried(Step(isPeerId, s, e), n, stage, p) {
      StepCarried(isPeerId, s, e, n, stage, p);
    } else {
      StepDone(isPeerId, s, e, n, stage, p);
    }
  }

  /** Whatever a run does, or is about to do, was chosen at one of its steps. */
  lemma {:induction false} RunChooses(isPeerId: Bytes -> bool, s: Net, es: seq<Event>, n: PeerId, stage: Stage, p: Packet) returns (k: nat)
    requires Init(s) && Runs(isPeerId, s, es) && (stage.Delivering? || stage.Sending?) && UnderWay(Run(isPeerId, s, es), n, stage, p)
    ensures k < |es| && Runs(isPeerId, s, es[..k]) && Chooses(Run(isPeerId, s, es[..k]), es[k], n, stage, p)
  {
    assert es != [];
    var m := |es| - 1;
    RunLast(isPeerId, s, es);
    k := m;
    if !Chooses(Run(isPeerId, s, es[..m]), es[m], n, stage, p) {
      RunLocated(isPeerId, s, es[..m]);
      StepUnderWay(isPeerId, Run(isPeerId, s, es[..m]), es[m], n, stage, p);
      k := RunChooses(isPeerId, s, es[..m], n, stage, p);
      assert es[..m][..k] == es[..k];
    }
  }

  lemma {:induction false} Chosen(isPeerId: Bytes -> bool, s: Net, es: seq<Event>, n: PeerId, stage: Stage, p: Packet) returns (k: nat)
    requires Init(s) && Runs(isPeerId, s, es) && Done(Run(isPeerId, s, es), n, stage, p)
    ensures n in s.nodes && k < |es| && Chooses(At(isPeerId, s, es, k), es[k], n, stage, p) && Runs(isPeerId, s, es[..k])
    ensures At(isPeerId, s, es, k) == Run(isPeerId, s, es[..k])
  {
    k := RunChooses(isPeerId, s, es, n, stage, p);
    AtIsRun(isPeerId, s, es, k);
    RunNodes(isPeerId, s, es[..k]);
  }

  /** Every hand-over was decided at a step of the run at which the app was connected: its last connect was not yet followed by a disconnect. */
  lemma {:induction false} HandsAreGuided(isPeerId: Bytes -> bool, s: Net, es: seq<Event>, n: PeerId, i: nat)
    requires Init(s) && Runs(isPeerId, s, es) && i < |HandedBy(Run(isPeerId, s, es), n)|
    ensures var h := HandedBy(Run(isPeerId, s, es), n)[i];
      exists k :: 0 <= k < |es| && Chooses(At(isPeerId, s, es, k), es[k], n, Delivering, h.pkt) && Online(es[..k], n, h.app)
  {
    var h := HandedBy(Run(isPeerId, s, es), n)[i];
    RunLocated(isPeerId, s, es);
    assert Done(Run(isPeerId, s, es), n, Delivering, h.pkt);
    var k := Chosen(isPeerId, s, es, n, Delivering, h.pkt);
    TablesAreHistory(isPeerId, s, es[..k], n, h.app);
  }

  /**
    Every forward was decided at a step of the run at which its next hop was the via node of the last
    announcement of the recipient, with no tombstone since and its lifetime not over.
   */
  lemma {:induction false} ForwardsAreGuided(isPeerId: Bytes -> bool, s: Net, es: seq<Event>, n: PeerId, i: nat)
    requires Init(s) && Runs(isPeerId, s, es) && n in Run(isPeerId, s, es).nodes && i < |Run(isPeerId, s, es).nodes[n].log.sent|
    ensures var f := Run(isPeerId, s, es).nodes[n].log.sent[i];
      exists k :: 0 <= k < |es| && Chooses(At(isPeerId, s, es, k), es[k], n, Sending(f.dst), f.pkt)
        && var last := Router.Last(RouteOps(es[..k], n), f.pkt.recipient);
        last.Some? && last.value.via == f.dst && At(isPeerId, s, es, k).nodes[n].now <= last.value.expires
  {
    var f := Run(isPeerId, s, es).nodes[n].log.sent[i];
    assert Done(Run(isPeerId, s, es), n, Sending(f.dst), f.pkt);
    var k := Chosen(isPeerId, s, es, n, Sending(f.dst), f.pkt);
    TablesAreHistory(isPeerId, s, es[..k], n, f.pkt.recipient);
  }
}
