/** A flush among everything else that runs: what it loses, and when (internal/relay/manager.go, queue.go). */
module RelayFlush {
  import opened Common
  import opened Relay
  import opened RelayConservation
  import opened RelayRuns
  import opened RelayBounds
  import opened RelayReasons
  import opened RelayHistory
  import Queue

  // ----- When putting a packet back loses one -----

  /** The step drops a copy at a queue slot: it is replaced there or refused a slot. */
  ghost predicate Displaces(s: Net, s': Net) {
    exists t :: 0 <= t < |s.place| <= |s'.place| && s'.place[t] != s.place[t] && (s'.place[t].Superseded? || s'.place[t].Refused?)
  }

  /** Putting a packet back costs a packet exactly when its sender has a slot again, or the recipient has no slot left. */
  lemma {:induction false} PutBackLosesIff(isPeerId: Bytes -> bool, s: Net, j: nat)
    requires Located(s) && Enabled(s, PutBack(j))
    ensures var job := s.jobs[j];
      var b := Queue.BucketOf(s.nodes[job.node].queue, job.recipient);
      Displaces(s, Step(isPeerId, s, PutBack(j))) <==> job.pending[0].sender in b || |b| >= Queue.MAX_SENDERS
  {
    var job := s.jobs[j];
    var s' := Keep(Pop(s, j), job.node, job.recipient, job.pending[0]);
    assert s' == Step(isPeerId, s, PutBack(j));
    var p, b := job.pending[0], Queue.BucketOf(s.nodes[job.node].queue, job.recipient);
    PutBackPlace(s, j, p.copy);
    if p.sender in b {
      assert Slot(s, job.node, job.recipient, p.sender) == Some(b[p.sender].pkt);
      PutBackPlace(s, j, b[p.sender].pkt.copy);
      assert s'.place[b[p.sender].pkt.copy].Superseded?;
    } else if |b| >= Queue.MAX_SENDERS {
      assert s'.place[p.copy].Refused?;
    } else {
      forall t: nat | t < |s.place| ensures s'.place[t] == s.place[t] || s'.place[t].Waiting? {
        PutBackPlace(s, j, t);
      }
    }
  }

  // ----- A flush that nothing else disturbs loses nothing -----

  function Handed(log: Log, h: nat): set<Packet> {
    set i | h <= i < |log.handed| :: log.handed[i].pkt
  }

  function Sent(log: Log, g: nat): set<Packet> {
    set i | g <= i < |log.sent| :: log.sent[i].pkt
  }

  /** What a node handed over or sent after its logs had `h` and `g` entries. */
  function Gone(log: Log, h: nat, g: nat): set<Packet> {
    Handed(log, h) + Sent(log, g)
  }

  /** The step is not another put, take or expiry at the bucket of `r` at node `n`, which job `j` is flushing, and does not end the flush. */
  ghost predicate Undisturbed(s: Net, e: Event, n: PeerId, r: PeerId, j: nat)
    requires Enabled(s, e)
  {
    match e
    case Flush(m, q, _, _) => (m, q) != (n, r)
    case PutBack(i) => i == j || (s.jobs[i].node, s.jobs[i].recipient) != (n, r)
    case SweepQueue(m) => m == n ==> forall k :: k in Queue.BucketOf(s.nodes[n].queue, r) ==>
      Queue.Fresh(Queue.BucketOf(s.nodes[n].queue, r)[k], s.nodes[n].now)
    case Finish(i) => i != j
    case _ => true
  }

  ghost predicate AllUndisturbed(isPeerId: Bytes -> bool, s: Net, es: seq<Event>, n: PeerId, r: PeerId, j: nat)
    requires Runs(isPeerId, s, es)
    decreases |es|
  {
    es != [] ==> Undisturbed(s, es[0], n, r, j) && AllUndisturbed(isPeerId, Step(isPeerId, s, es[0]), es[1..], n, r, j)
  }

  ghost function Back(s: Net, e: Event, j: nat): set<Packet>
    requires Enabled(s, e)
  {
    if e == PutBack(j) then {s.jobs[j].pending[0]} else {}
  }

  /** The packets job `j` puts back in a run. */
  ghost function Returned(isPeerId: Bytes -> bool, s: Net, es: seq<Event>, j: nat): set<Packet>
    requires Runs(isPeerId, s, es)
    decreases |es|
  {
    if es == [] then {}
    else Back(s, es[0], j) + Returned(isPeerId, Step(isPeerId, s, es[0]), es[1..], j)
  }

  /** The bucket holds exactly the packets `back`, each under its sender. */
  ghost predicate Holds(b: Queue.Bucket, back: set<Packet>) {
    && (forall k :: k in b ==> b[k].pkt in back && b[k].pkt.sender == k)
    && (forall p :: p in back ==> p.sender in b && b[p.sender].pkt == p)
  }

  /** `ps` with `pending` still to go: what is done is in the bucket or gone, not both, and nothing pending is gone. */
  ghost predicate Progress(ps: seq<Packet>, pending: seq<Packet>, b: Queue.Bucket, back: set<Packet>, gone: set<Packet>) {
    && |pending| <= |ps| && pending == ps[|ps| - |pending|..]
    && Holds(b, back) && |b| <= |ps| - |pending|
    && (forall p :: p in back ==> p in ps[..|ps| - |pending|])
    && (forall p :: p in ps[..|ps| - |pending|] ==> (p in back <==> p !in gone))
    && (forall p :: p in pending ==> p !in gone)
  }

  ghost predicate Senders(ps: seq<Packet>) {
    |ps| <= Queue.MAX_SENDERS && forall i, k :: 0 <= i < k < |ps| ==> ps[i].sender != ps[k].sender
  }

  lemma ProgressPop(ps: seq<Packet>, pending: seq<Packet>)
    requires |pending| <= |ps| && pending == ps[|ps| - |pending|..] && pending != [] && Senders(ps)
    ensures pending[1..] == ps[|ps| - |pending| + 1..]
    ensures ps[..|ps| - |pending| + 1] == ps[..|ps| - |pending|] + [pending[0]]
    ensures forall p :: p in ps[..|ps| - |pending|] || p in pending[1..] ==> p.sender != pending[0].sender
  {
  }

  lemma {:induction false} ProgressPutBack(ps: seq<Packet>, pending: seq<Packet>, b: Queue.Bucket, back: set<Packet>, gone: set<Packet>, now: Time)
    requires Progress(ps, pending, b, back, gone) && pending != [] && Senders(ps)
    ensures Progress(ps, pending[1..], Queue.Slotted(b, pending[0], now), back + {pending[0]}, gone)
  {
    ProgressPop(ps, pending);
    Queue.SlottedCard(b, pending[0], now);
  }

  lemma {:induction false} ProgressGo(ps: seq<Packet>, pending: seq<Packet>, b: Queue.Bucket, back: set<Packet>, gone: set<Packet>)
    requires Progress(ps, pending, b, back, gone) && pending != [] && Senders(ps)
    ensures Progress(ps, pending[1..], b, back, gone + {pending[0]})
  {
    ProgressPop(ps, pending);
  }

  lemma ProgressElse(ps: seq<Packet>, pending: seq<Packet>, b: Queue.Bucket, back: set<Packet>, gone: set<Packet>, q: Packet)
    requires Progress(ps, pending, b, back, gone) && q !in back && q !in pending
    ensures Progress(ps, pending, b, back, gone + {q})
  {
  }

  /** Job `j` is flushing what it took of `r` at node `n`, whose logs had `h` and `g` entries then. */
  ghost predicate Flushing(s: Net, n: PeerId, r: PeerId, j: nat, ps: seq<Packet>, back: set<Packet>, h: nat, g: nat) {
    && n in s.nodes && j in s.jobs && s.jobs[j].node == n && s.jobs[j].recipient == r
    && h <= |s.nodes[n].log.handed| && g <= |s.nodes[n].log.sent|
    && Progress(ps, s.jobs[j].pending, Queue.BucketOf(s.nodes[n].queue, r), back, Gone(s.nodes[n].log, h, g))
  }

  lemma GoneHand(log: Log, h: nat, g: nat, x: Handing)
    requires h <= |log.handed|
    ensures Gone(log.(handed := log.handed + [x]), h, g) == Gone(log, h, g) + {x.pkt}
  {
    var log' := log.(handed := log.handed + [x]);
    assert log'.handed[|log.handed|] == x;
    forall p | p in Handed(log, h) ensures p in Handed(log', h) {
      var i :| h <= i < |log.handed| && log.handed[i].pkt == p;
      assert log'.handed[i].pkt == p;
    }
    assert Handed(log', h) == Handed(log, h) + {x.pkt};
  }

  lemma GoneSend(log: Log, h: nat, g: nat, x: Flight)
    requires g <= |log.sent|
    ensures Gone(log.(sent := log.sent + [x]), h, g) == Gone(log, h, g) + {x.pkt}
  {
    var log' := log.(sent := log.sent + [x]);
    assert log'.sent[|log.sent|] == x;
    forall p | p in Sent(log, g) ensures p in Sent(log', g) {
      var i :| g <= i < |log.sent| && log.sent[i].pkt == p;
      assert log'.sent[i].pkt == p;
    }
    assert Sent(log', g) == Sent(log, g) + {x.pkt};
  }

  /** What handing over or forwarding does at the node of the job. */
  lemma PopNode(isPeerId: Bytes -> bool, s: Net, e: Event, h: nat, g: nat)
    requires Enabled(s, e) && (e.Hand? || e.Forward?)
    requires h <= |s.nodes[s.jobs[e.job].node].log.handed| && g <= |s.nodes[s.jobs[e.job].node].log.sent|
    ensures var s', n := Step(isPeerId, s, e), s.jobs[e.job].node;
      && n in s'.nodes && s'.jobs == Pop(s, e.job).jobs && s'.nodes[n].queue == s.nodes[n].queue
      && |s'.nodes[n].log.handed| >= h && |s'.nodes[n].log.sent| >= g
      && Gone(s'.nodes[n].log, h, g) == Gone(s.nodes[n].log, h, g) + {s.jobs[e.job].pending[0]}
  {
    var s', n := Step(isPeerId, s, e), s.jobs[e.job].node;
    var log, p := s.nodes[n].log, s.jobs[e.job].pending[0];
    if e.Hand? {
      GoneHand(log, h, g, Handing(s.jobs[e.job].recipient, p));
    } else {
      GoneSend(log, h, g, Flight(s.jobs[e.job].stage.via, p));
    }
  }

  lemma {:induction false} OwnStep(isPeerId: Bytes -> bool, s: Net, e: Event, n: PeerId, r: PeerId, j: nat, ps: seq<Packet>,
                                   back: set<Packet>, h: nat, g: nat)
    requires Enabled(s, e) && Senders(ps) && Flushing(s, n, r, j, ps, back, h, g)
    requires (e.Hand? || e.Forward? || e.PutBack?) && e.job == j
    ensures Flushing(Step(isPeerId, s, e), n, r, j, ps, back + Back(s, e, j), h, g)
  {
    var pending, b, gone := s.jobs[j].pending, Queue.BucketOf(s.nodes[n].queue, r), Gone(s.nodes[n].log, h, g);
    if e.PutBack? {
      StepQueue(isPeerId, s, e, n);
      StepLog(isPeerId, s, e, n);
      Queue.StoredBucket(s.nodes[n].queue, r, pending[0], s.nodes[n].now);
      PutBackJob(isPeerId, s, j);
      ProgressPutBack(ps, pending, b, back, gone, s.nodes[n].now);
    } else {
      PopNode(isPeerId, s, e, h, g);
      ProgressGo(ps, pending, b, back, gone);
      assert back + {} == back;
    }
  }

  lemma PutBackJob(isPeerId: Bytes -> bool, s: Net, j: nat)
    requires Enabled(s, PutBack(j))
    ensures Step(isPeerId, s, PutBack(j)).jobs == Pop(s, j).jobs
  {
  }

  lemma RouteOldJob(isPeerId: Bytes -> bool, s: Net, m: PeerId, p: Packet, i: nat, j: nat)
    requires m in s.nodes && p.copy < |s.place| && j in s.jobs && j != i
    ensures j in Route(isPeerId, s, m, p, i).jobs && Route(isPeerId, s, m, p, i).jobs[j] == s.jobs[j]
  {
  }

  /** A job changes only by its own steps. */
  lemma {:induction false} OtherJob(isPeerId: Bytes -> bool, s: Net, e: Event, j: nat)
    requires Enabled(s, e) && j in s.jobs
    requires e.Hand? || e.Forward? || e.PutBack? || e.Finish? ==> e.job != j
    ensures j in Step(isPeerId, s, e).jobs
    ensures var job, job' := s.jobs[j], Step(isPeerId, s, e).jobs[j];
      job'.node == job.node && job'.recipient == job.recipient && job'.pending == job.pending
  {
    match e
    case Inject(m, p, i) => RouteOldJob(isPeerId, Admit(s, p), m, p, i, j);
    case Receive(f, i) => RouteOldJob(isPeerId, Land(s, f), s.flights[f].dst, s.flights[f].pkt, i, j);
    case PutBack(i) => PutBackJob(isPeerId, s, i);
    case Flush(_, _, _, _) =>
    case Hand(_) =>
    case Forward(_, _) =>
    case SweepQueue(_) =>
    case _ =>
  }

  lemma SweptBucket(q: Queue.Items, r: PeerId, now: Time)
    requires forall k :: k in Queue.BucketOf(q, r) ==> Queue.Fresh(Queue.BucketOf(q, r)[k], now)
    ensures Queue.BucketOf(Queue.Sweep(q, now), r) == Queue.BucketOf(q, r)
  {
    if r in q {
      assert Queue.BucketOf(q, r) == q[r];
      assert forall k :: k in q[r] ==> Queue.Fresh(q[r][k], now);
      assert Queue.Unexpired(q[r], now) == q[r];
    }
  }

  lemma {:induction false} OtherBucket(isPeerId: Bytes -> bool, s: Net, e: Event, n: PeerId, r: PeerId, j: nat)
    requires Enabled(s, e) && n in s.nodes && Undisturbed(s, e, n, r, j) && e != PutBack(j)
    ensures n in Step(isPeerId, s, e).nodes
    ensures Queue.BucketOf(Step(isPeerId, s, e).nodes[n].queue, r) == Queue.BucketOf(s.nodes[n].queue, r)
  {
    StepQueue(isPeerId, s, e, n);
    if e == SweepQueue(n) {
      SweptBucket(s.nodes[n].queue, r, s.nodes[n].now);
    }
  }

  /** What another job handles is neither in the bucket nor with this job. */
  lemma OtherPacket(s: Net, n: PeerId, r: PeerId, j: nat, ps: seq<Packet>, back: set<Packet>, h: nat, g: nat, i: nat)
    requires Located(s) && Flushing(s, n, r, j, ps, back, h, g) && i in s.jobs && i != j && s.jobs[i].pending != []
    ensures s.jobs[i].pending[0] !in back && s.jobs[i].pending[0] !in s.jobs[j].pending
  {
    var q := s.jobs[i].pending[0];
    assert JobOk(s, i, s.jobs[i]) && JobOk(s, j, s.jobs[j]);
    assert q in back ==> Slot(s, n, r, q.sender) == Some(q);
  }

  lemma {:induction false} OtherStep(isPeerId: Bytes -> bool, s: Net, e: Event, n: PeerId, r: PeerId, j: nat, ps: seq<Packet>,
                                     back: set<Packet>, h: nat, g: nat)
    requires Located(s) && Enabled(s, e) && Flushing(s, n, r, j, ps, back, h, g) && Undisturbed(s, e, n, r, j)
    requires !((e.Hand? || e.Forward? || e.PutBack?) && e.job == j)
    ensures Flushing(Step(isPeerId, s, e), n, r, j, ps, back + Back(s, e, j), h, g)
  {
    assert back + {} == back;
    OtherJob(isPeerId, s, e, j);
    OtherBucket(isPeerId, s, e, n, r, j);
    if (e.Hand? || e.Forward?) && s.jobs[e.job].node == n {
      OtherPacket(s, n, r, j, ps, back, h, g, e.job);
      PopNode(isPeerId, s, e, h, g);
      ProgressElse(ps, s.jobs[j].pending, Queue.BucketOf(s.nodes[n].queue, r), back, Gone(s.nodes[n].log, h, g), s.jobs[e.job].pending[0]);
    } else {
      StepLog(isPeerId, s, e, n);
    }
  }

  lemma {:induction false} StepFlushing(isPeerId: Bytes -> bool, s: Net, e: Event, n: PeerId, r: PeerId, j: nat, ps: seq<Packet>,
                                        back: set<Packet>, h: nat, g: nat)
    requires Located(s) && Senders(ps) && Flushing(s, n, r, j, ps, back, h, g) && Enabled(s, e) && Undisturbed(s, e, n, r, j)
    ensures Located(Step(isPeerId, s, e))
    ensures Flushing(Step(isPeerId, s, e), n, r, j, ps, back + Back(s, e, j), h, g)
  {
    StepOk(isPeerId, s, e);
    if (e.Hand? || e.Forward? || e.PutBack?) && e.job == j {
      OwnStep(isPeerId, s, e, n, r, j, ps, back, h, g);
    } else {
      OtherStep(isPeerId, s, e, n, r, j, ps, back, h, g);
    }
  }

  /** What a flush puts back in a run, after it put back `back`. */
  ghost function Total(isPeerId: Bytes -> bool, s: Net, es: seq<Event>, j: nat, back: set<Packet>): set<Packet>
    requires Runs(isPeerId, s, es)
  {
    back + Returned(isPeerId, s, es, j)
  }

  lemma TotalFirst(isPeerId: Bytes -> bool, s: Net, es: seq<Event>, j: nat, back: set<Packet>)
    requires Runs(isPeerId, s, es) && es != []
    ensures Total(isPeerId, s, es, j, back) == Total(isPeerId, Step(isPeerId, s, es[0]), es[1..], j, back + Back(s, es[0], j))
  {
  }

  lemma {:induction false} RunFlushing(isPeerId: Bytes -> bool, s: Net, es: seq<Event>, n: PeerId, r: PeerId, j: nat, ps: seq<Packet>,
                                       back: set<Packet>, h: nat, g: nat)
    requires Located(s) && Senders(ps) && Flushing(s, n, r, j, ps, back, h, g)
    requires Runs(isPeerId, s, es) && AllUndisturbed(isPeerId, s, es, n, r, j)
    ensures Flushing(Run(isPeerId, s, es), n, r, j, ps, Total(isPeerId, s, es, j, back), h, g)
    decreases |es|
  {
    if es == [] {
      assert Total(isPeerId, s, es, j, back) == back;
    } else {
      StepFlushing(isPeerId, s, es[0], n, r, j, ps, back, h, g);
      RunFlushing(isPeerId, Step(isPeerId, s, es[0]), es[1..], n, r, j, ps, back + Back(s, es[0], j), h, g);
      TotalFirst(isPeerId, s, es, j, back);
    }
  }

  /** A flush starts with an empty bucket and everything still to do. */
  lemma {:induction false} FlushStarts(isPeerId: Bytes -> bool, s: Net, n: PeerId, r: PeerId, ps: seq<Packet>, j: nat)
    requires Enabled(s, Flush(n, r, ps, j)) && ps != [] && Queue.Valid(s.nodes[n].queue)
    ensures var s' := Step(isPeerId, s, Flush(n, r, ps, j));
      && Senders(ps) && n in s'.nodes
      && Flushing(s', n, r, j, ps, {}, |s'.nodes[n].log.handed|, |s'.nodes[n].log.sent|)
  {
    Queue.ListsMeans(ps, Ready(s.nodes[n], r));
    Queue.UnexpiredCard(Queue.BucketOf(s.nodes[n].queue, r), s.nodes[n].now);
    var s' := Step(isPeerId, s, Flush(n, r, ps, j));
    assert Gone(s'.nodes[n].log, |s'.nodes[n].log.handed|, |s'.nodes[n].log.sent|) == {};
    assert ps[0..] == ps;
  }

  /** What an undisturbed flush leaves behind. */
  ghost predicate Flushed(s: Net, s': Net, n: PeerId, r: PeerId, ps: seq<Packet>, back: set<Packet>) {
    && n in s.nodes && n in s'.nodes
    && Holds(Queue.BucketOf(s'.nodes[n].queue, r), back)
    && (forall p :: p in back ==> p in ps)
    && forall p :: p in ps ==> (p in back <==> p !in Gone(s'.nodes[n].log, |s.nodes[n].log.handed|, |s.nodes[n].log.sent|))
  }

  lemma {:induction false} FlushEnds(s: Net, s': Net, n: PeerId, r: PeerId, ps: seq<Packet>, j: nat, back: set<Packet>)
    requires n in s.nodes && Flushing(s', n, r, j, ps, {} + back, |s.nodes[n].log.handed|, |s.nodes[n].log.sent|)
    requires s'.jobs[j].pending == []
    ensures Flushed(s, s', n, r, ps, back)
  {
    assert {} + back == back;
    assert ps[..|ps|] == ps;
  }

  lemma {:induction false} FlushFrom(isPeerId: Bytes -> bool, s: Net, n: PeerId, r: PeerId, ps: seq<Packet>, j: nat, rest: seq<Event>)
    requires Located(s) && Enabled(s, Flush(n, r, ps, j)) && ps != [] && Queue.Valid(s.nodes[n].queue)
    requires var s' := Step(isPeerId, s, Flush(n, r, ps, j));
      && Runs(isPeerId, s', rest) && AllUndisturbed(isPeerId, s', rest, n, r, j)
      && j in Run(isPeerId, s', rest).jobs && Run(isPeerId, s', rest).jobs[j].pending == []
    ensures var s' := Step(isPeerId, s, Flush(n, r, ps, j));
      Flushed(s', Run(isPeerId, s', rest), n, r, ps, Returned(isPeerId, s', rest, j))
  {
    var s' := Step(isPeerId, s, Flush(n, r, ps, j));
    FlushStarts(isPeerId, s, n, r, ps, j);
    assert Located(s') by {
      StepOk(isPeerId, s, Flush(n, r, ps, j));
    }
    RunFlushing(isPeerId, s', rest, n, r, j, ps, {}, |s'.nodes[n].log.handed|, |s'.nodes[n].log.sent|);
    FlushEnds(s', Run(isPeerId, s', rest), n, r, ps, j, Returned(isPeerId, s', rest, j));
  }

  /**
    In every run, a flush that no other put, take or expiry at the same bucket disturbs loses nothing,
    whatever else happens at any node meanwhile: when it has gone through what it took, the bucket holds
    exactly the packets it put back, and exactly the others were handed over or sent since it began.
   */
  lemma {:induction false} FlushLosesNothing(isPeerId: Bytes -> bool, s0: Net, es: seq<Event>, s: Net, n: PeerId, r: PeerId, ps: seq<Packet>,
                                             j: nat, rest: seq<Event>)
    requires Init(s0) && Runs(isPeerId, s0, es) && s == Run(isPeerId, s0, es)
    requires Enabled(s, Flush(n, r, ps, j)) && ps != []
    requires var s' := Step(isPeerId, s, Flush(n, r, ps, j));
      && Runs(isPeerId, s', rest) && AllUndisturbed(isPeerId, s', rest, n, r, j)
      && j in Run(isPeerId, s', rest).jobs && Run(isPeerId, s', rest).jobs[j].pending == []
    ensures var s' := Step(isPeerId, s, Flush(n, r, ps, j));
      Flushed(s', Run(isPeerId, s', rest), n, r, ps, Returned(isPeerId, s', rest, j))
  {
    ReachedSound(isPeerId, s0, es, n);
    FlushFrom(isPeerId, s, n, r, ps, j, rest);
  }

  lemma {:induction false} ReachedSound(isPeerId: Bytes -> bool, s: Net, es: seq<Event>, n: PeerId)
    requires Init(s) && Runs(isPeerId, s, es) && n in Run(isPeerId, s, es).nodes
    ensures Located(Run(isPeerId, s, es)) && Queue.Valid(Run(isPeerId, s, es).nodes[n].queue)
  {
    RunNodes(isPeerId, s, es);
    EveryQueueKeepsNewest(isPeerId, s, es, n);
    RunLocated(isPeerId, s, es);
  }
}
