/** Why copies are dropped: every drop has the one cause its recorded place names, and every cause leads to that drop. */
module RelayReasons {
  import opened Common
  import Queue
  import opened Relay
  import opened RelayConservation
  import opened RelayRuns
  import opened RelayBounds
  import Dedup

  /** The entry a copy has in the queue of node `n`, if that slot is its own. */
  ghost predicate Queues(s: Net, n: PeerId, p: Packet) {
    Slot(s, n, p.recipient, p.sender) == Some(p)
  }

  /** Step `e`, taken in `s`, is the cause that `d` names for dropping `p`. */
  ghost predicate Because(isPeerId: Bytes -> bool, s: Net, e: Event, p: Packet, d: Place) {
    match d
    case Lost => e.Lose? && e.flight in s.flights && s.flights[e.flight].pkt == p
    case Deduped(n) => Routed(s, e) == Some((n, p)) && n in s.nodes && p.id in s.nodes[n].dedup
    case Rejected(n) => Routed(s, e) == Some((n, p)) && n in s.nodes && p.id !in s.nodes[n].dedup && !isPeerId(p.recipient)
    case Superseded(n) => PutsBackAt(s, e, n, p) && Queues(s, n, p) && s.jobs[e.job].pending[0].sender == p.sender
    case Refused(n) => PutsBackAt(s, e, n, p) && s.jobs[e.job].pending[0] == p
      && Queue.Refuses(Queue.BucketOf(s.nodes[n].queue, p.recipient), p.sender)
    case Expired(n) => (e == SweepQueue(n) || (e.Flush? && e.node == n && e.recipient == p.recipient))
      && Queues(s, n, p) && s.nodes[n].queue[p.recipient][p.sender].at < s.nodes[n].now - 7 * 24 * HOUR
    case _ => false
  }

  /** A job puts back a packet for the recipient of `p` at node `n`. */
  ghost predicate PutsBackAt(s: Net, e: Event, n: PeerId, p: Packet) {
    e.PutBack? && Working(s, e.job) && s.jobs[e.job].node == n && s.jobs[e.job].recipient == p.recipient
  }

  /** After step `e`, a copy is dropped as `d` if and only if it was already, or the step is the cause. */
  ghost predicate Reasoned(isPeerId: Bytes -> bool, s: Net, e: Event, s': Net, d: Place) {
    && |s.place| <= |s'.place| == |s'.injected|
    && forall t :: 0 <= t < |s'.place| ==>
      (s'.place[t] == d <==> (t < |s.place| && s.place[t] == d) || Because(isPeerId, s, e, s'.injected[t], d))
  }

  lemma InjectReasons(isPeerId: Bytes -> bool, s: Net, n: PeerId, p: Packet, j: nat, d: Place)
    requires Located(s) && Enabled(s, Inject(n, p, j)) && Drop(d)
    ensures var s' := Route(isPeerId, Admit(s, p), n, p, j);
      Reasoned(isPeerId, s, Inject(n, p, j), s', d)
  {
    RoutePlace(isPeerId, Admit(s, p), n, p, j);
  }

  lemma ReceiveReasons(isPeerId: Bytes -> bool, s: Net, f: nat, j: nat, d: Place)
    requires Located(s) && Enabled(s, Receive(f, j)) && Drop(d)
    ensures var s' := Route(isPeerId, Land(s, f), s.flights[f].dst, s.flights[f].pkt, j);
      Reasoned(isPeerId, s, Receive(f, j), s', d)
  {
    RoutePlace(isPeerId, Land(s, f), s.flights[f].dst, s.flights[f].pkt, j);
  }

  lemma LoseReasons(isPeerId: Bytes -> bool, s: Net, f: nat, d: Place)
    requires Located(s) && f in s.flights && Drop(d)
    ensures var s' := Mark(Land(s, f), s.flights[f].pkt, Lost);
      Reasoned(isPeerId, s, Lose(f), s', d)
  {
  }

  lemma TakeReasons(isPeerId: Bytes -> bool, s: Net, n: PeerId, r: PeerId, ps: seq<Packet>, j: nat, d: Place)
    requires Located(s) && n in s.nodes && Drop(d)
    ensures var s' := TakeBucket(s, n, r, ps, j);
      Reasoned(isPeerId, s, Flush(n, r, ps, j), s', d)
  {
  }

  lemma SweepReasons(isPeerId: Bytes -> bool, s: Net, n: PeerId, d: Place)
    requires Located(s) && n in s.nodes && Drop(d)
    ensures var s' := SweepNode(s, n);
      Reasoned(isPeerId, s, SweepQueue(n), s', d)
  {
  }

  /** Where a put-back leaves every copy. */
  lemma PutBackPlace(s: Net, j: nat, t: nat)
    requires Located(s) && Working(s, j) && t < |s.place|
    ensures var job := s.jobs[j];
      var n, r, p := job.node, job.recipient, job.pending[0];
      var b, s' := Queue.BucketOf(s.nodes[n].queue, r), Keep(Pop(s, j), n, r, p);
      && |s'.place| == |s.place| && s'.injected == s.injected && p.recipient == r && Known(s, p) && s.place[p.copy] == Held(n, j)
      && s'.place[t] ==
        if t == p.copy then if Queue.Refuses(b, p.sender) then Refused(n) else Waiting(n, r)
        else if p.sender in b && b[p.sender].pkt == s.injected[t] then Superseded(n)
        else s.place[t]
  {
    var job := s.jobs[j];
    assert JobOk(s, j, job);
    var b := Queue.BucketOf(s.nodes[job.node].queue, job.recipient);
    if job.pending[0].sender in b {
      assert Slot(s, job.node, job.recipient, job.pending[0].sender) == Some(b[job.pending[0].sender].pkt);
    }
  }

  lemma PutBackReasons(isPeerId: Bytes -> bool, s: Net, j: nat, d: Place)
    requires Located(s) && Working(s, j) && Drop(d)
    ensures var s' := Keep(Pop(s, j), s.jobs[j].node, s.jobs[j].recipient, s.jobs[j].pending[0]);
      Reasoned(isPeerId, s, PutBack(j), s', d)
  {
    var s' := Keep(Pop(s, j), s.jobs[j].node, s.jobs[j].recipient, s.jobs[j].pending[0]);
    forall t: nat | t < |s'.place| ensures s'.place[t] == d <==> s.place[t] == d || Because(isPeerId, s, PutBack(j), s'.injected[t], d) {
      PutBackReason(isPeerId, s, j, t, d);
    }
  }

  lemma PutBackReason(isPeerId: Bytes -> bool, s: Net, j: nat, t: nat, d: Place)
    requires Located(s) && Working(s, j) && Drop(d) && t < |s.place|
    ensures var s' := Keep(Pop(s, j), s.jobs[j].node, s.jobs[j].recipient, s.jobs[j].pending[0]);
      && |s'.place| == |s.place| && s'.injected == s.injected
      && (s'.place[t] == d <==> s.place[t] == d || Because(isPeerId, s, PutBack(j), s.injected[t], d))
  {
    PutBackPlace(s, j, t);
    SlotIsBucket(s, s.jobs[j].node, s.jobs[j].recipient, s.jobs[j].pending[0].sender, s.injected[t]);
    match d
    case Superseded(n) =>
    case Refused(n) =>
    case _ =>
  }

  lemma SlotIsBucket(s: Net, n: PeerId, r: PeerId, k: Bytes, q: Packet)
    requires QueuesOk(s) && n in s.nodes
    ensures var b := Queue.BucketOf(s.nodes[n].queue, r);
      k in b && b[k].pkt == q <==> Queues(s, n, q) && q.recipient == r && q.sender == k
    ensures Queues(s, n, q) ==> Known(s, q) && s.place[q.copy] == Waiting(n, q.recipient)
  {
    var b := Queue.BucketOf(s.nodes[n].queue, r);
    if k in b {
      assert Slot(s, n, r, k) == Some(b[k].pkt);
    }
  }

  lemma PopReasons(isPeerId: Bytes -> bool, s: Net, e: Event, d: Place)
    requires Located(s) && Enabled(s, e) && (e.Hand? || e.Forward?) && Drop(d)
    ensures var s' := Step(isPeerId, s, e);
      Reasoned(isPeerId, s, e, s', d)
  {
    assert JobOk(s, e.job, s.jobs[e.job]);
  }

  /** Every step drops a copy exactly when the cause its new place names is there. */
  lemma {:induction false} StepReasons(isPeerId: Bytes -> bool, s: Net, e: Event, d: Place)
    requires Located(s) && Enabled(s, e) && Drop(d)
    ensures Reasoned(isPeerId, s, e, Step(isPeerId, s, e), d)
  {
    match e
    case Inject(n, p, j) => InjectReasons(isPeerId, s, n, p, j, d);
    case Receive(f, j) => ReceiveReasons(isPeerId, s, f, j, d);
    case Lose(f) => LoseReasons(isPeerId, s, f, d);
    case Flush(n, r, ps, j) => TakeReasons(isPeerId, s, n, r, ps, j, d);
    case PutBack(j) => PutBackReasons(isPeerId, s, j, d);
    case SweepQueue(n) => SweepReasons(isPeerId, s, n, d);
    case Hand(_) => PopReasons(isPeerId, s, e, d);
    case Forward(_, _) => PopReasons(isPeerId, s, e, d);
    case _ => QuietReasons(isPeerId, s, e, d);
  }

  lemma QuietReasons(isPeerId: Bytes -> bool, s: Net, e: Event, d: Place)
    requires Enabled(s, e) && (e.Pick? || e.Find? || e.Finish? || e.Local?) && Drop(d)
    ensures var s' := Step(isPeerId, s, e);
      Reasoned(isPeerId, s, e, s', d)
  {
  }

  /** A replaced packet gave its slot to another copy from the same sender to the same recipient. */
  lemma {:induction false} ReplacedBySameSender(isPeerId: Bytes -> bool, s: Net, e: Event, p: Packet, n: PeerId)
    requires Located(s) && Enabled(s, e) && Because(isPeerId, s, e, p, Superseded(n))
    ensures var q := s.jobs[e.job].pending[0];
      q != p && q.sender == p.sender && q.recipient == p.recipient && Slot(Step(isPeerId, s, e), n, p.recipient, p.sender) == Some(q)
  {
    assert JobOk(s, e.job, s.jobs[e.job]);
    KeepSlots(Pop(s, e.job), n, p.recipient, s.jobs[e.job].pending[0]);
  }

  /** At some step of the run the cause that `d` names for dropping `p` was there. */
  ghost predicate Caused(isPeerId: Bytes -> bool, s: Net, es: seq<Event>, p: Packet, d: Place)
    requires Runs(isPeerId, s, es)
  {
    exists k :: 0 <= k < |es| && Because(isPeerId, At(isPeerId, s, es, k), es[k], p, d)
  }

  lemma AtTail(isPeerId: Bytes -> bool, s: Net, es: seq<Event>, k: nat)
    requires Runs(isPeerId, s, es) && k < |es| - 1
    ensures At(isPeerId, s, es, k + 1) == At(isPeerId, Step(isPeerId, s, es[0]), es[1..], k) && es[k + 1] == es[1..][k]
  {
  }

  lemma CausedLater(isPeerId: Bytes -> bool, s: Net, es: seq<Event>, p: Packet, d: Place)
    requires Runs(isPeerId, s, es) && es != []
    ensures Because(isPeerId, s, es[0], p, d) ==> Caused(isPeerId, s, es, p, d)
    ensures Caused(isPeerId, Step(isPeerId, s, es[0]), es[1..], p, d) ==> Caused(isPeerId, s, es, p, d)
  {
    var s', tail := Step(isPeerId, s, es[0]), es[1..];
    if Because(isPeerId, s, es[0], p, d) {
      assert Because(isPeerId, At(isPeerId, s, es, 0), es[0], p, d);
    }
    if Caused(isPeerId, s', tail, p, d) {
      var k :| 0 <= k < |tail| && Because(isPeerId, At(isPeerId, s', tail, k), tail[k], p, d);
      AtTail(isPeerId, s, es, k);
      assert Because(isPeerId, At(isPeerId, s, es, k + 1), es[k + 1], p, d);
    }
  }

  lemma CausedFirst(isPeerId: Bytes -> bool, s: Net, es: seq<Event>, p: Packet, d: Place)
    requires Runs(isPeerId, s, es) && es != [] && Caused(isPeerId, s, es, p, d)
    ensures Because(isPeerId, s, es[0], p, d) || Caused(isPeerId, Step(isPeerId, s, es[0]), es[1..], p, d)
  {
    var k :| 0 <= k < |es| && Because(isPeerId, At(isPeerId, s, es, k), es[k], p, d);
    if k > 0 {
      AtTail(isPeerId, s, es, k - 1);
      assert Because(isPeerId, At(isPeerId, Step(isPeerId, s, es[0]), es[1..], k - 1), es[1..][k - 1], p, d);
    }
  }

  /** What a step drops is a copy the network has known, at the latest since that step. */
  lemma CauseKnown(isPeerId: Bytes -> bool, s: Net, e: Event, p: Packet, d: Place)
    requires Located(s) && Enabled(s, e) && Because(isPeerId, s, e, p, d)
    ensures p.copy < |s.place| + if e.Inject? then 1 else 0
  {
    if e.PutBack? {
      assert JobOk(s, e.job, s.jobs[e.job]);
    }
  }

  lemma {:induction false} RunReasons(isPeerId: Bytes -> bool, s: Net, es: seq<Event>, t: nat, d: Place)
    requires Located(s) && Settled(s) && Runs(isPeerId, s, es) && Drop(d) && t < |Run(isPeerId, s, es).place|
    ensures t < |Run(isPeerId, s, es).injected|
    ensures Run(isPeerId, s, es).place[t] == d <==>
      (t < |s.place| && s.place[t] == d) || Caused(isPeerId, s, es, Run(isPeerId, s, es).injected[t], d)
    decreases |es|
  {
    if es != [] {
      var s', final := Step(isPeerId, s, es[0]), Run(isPeerId, s, es);
      StepKept(isPeerId, s, es[0]);
      RunReasons(isPeerId, s', es[1..], t, d);
      StepReasons(isPeerId, s, es[0], d);
      StepFrame(isPeerId, s, es[0]);
      RunInjects(isPeerId, s', es[1..]);
      RunLocated(isPeerId, s', es[1..]);
      CausedLater(isPeerId, s, es, final.injected[t], d);
      if Caused(isPeerId, s, es, final.injected[t], d) {
        CausedFirst(isPeerId, s, es, final.injected[t], d);
      }
      if t >= |s'.place| && Because(isPeerId, s, es[0], final.injected[t], d) {
        CauseKnown(isPeerId, s, es[0], final.injected[t], d);
      }
    }
  }

  /**
    Over every run, an injected copy ends up dropped as `d` if and only if some step of the run was the
    cause that `d` names: the label of a dropped copy is the real reason, and no cause goes unrecorded.
   */
  lemma {:induction false} DroppedForCause(isPeerId: Bytes -> bool, s: Net, es: seq<Event>, t: nat, d: Place)
    requires Init(s) && Runs(isPeerId, s, es) && t < |Injections(es)| && Drop(d)
    ensures t < |Run(isPeerId, s, es).place|
    ensures Run(isPeerId, s, es).place[t] == d <==> Caused(isPeerId, s, es, Injections(es)[t], d)
  {
    RunLocated(isPeerId, s, es);
    RunInjects(isPeerId, s, es);
    RunReasons(isPeerId, s, es, t, d);
  }

  /** Every suppressed copy has an ID its node had accepted. */
  ghost predicate Honest(s: Net) {
    |s.place| == |s.injected| && forall t :: 0 <= t < |s.place| && s.place[t].Deduped? ==>
      s.place[t].node in s.nodes && Misses(s.nodes[s.place[t].node].log.accepts, s.injected[t].id) != []
  }

  lemma {:induction false} StepHonest(isPeerId: Bytes -> bool, s: Net, e: Event)
    requires Bounded(s) && Honest(s) && Enabled(s, e)
    ensures Honest(Step(isPeerId, s, e))
  {
    var s' := Step(isPeerId, s, e);
    StepFrame(isPeerId, s, e);
    StepOk(isPeerId, s, e);
    forall t | 0 <= t < |s'.place| && s'.place[t].Deduped?
      ensures s'.place[t].node in s'.nodes && Misses(s'.nodes[s'.place[t].node].log.accepts, s'.injected[t].id) != []
    {
      StepReasons(isPeerId, s, e, s'.place[t]);
      HonestCopy(isPeerId, s, e, t, s'.place[t].node);
    }
  }

  lemma {:induction false} HonestCopy(isPeerId: Bytes -> bool, s: Net, e: Event, t: nat, n: PeerId)
    requires Timed(s) && Honest(s) && Enabled(s, e) && t < |Step(isPeerId, s, e).injected|
    requires t < |s.place| ==> Step(isPeerId, s, e).injected[t] == s.injected[t]
    requires (t < |s.place| && s.place[t] == Deduped(n)) || Because(isPeerId, s, e, Step(isPeerId, s, e).injected[t], Deduped(n))
    ensures n in Step(isPeerId, s, e).nodes
    ensures Misses(Step(isPeerId, s, e).nodes[n].log.accepts, Step(isPeerId, s, e).injected[t].id) != []
  {
    var id := Step(isPeerId, s, e).injected[t].id;
    assert n in s.nodes && IdTimed(s.nodes[n], id);
    StepMisses(isPeerId, s, e, n, id);
  }

  lemma {:induction false} RunHonest(isPeerId: Bytes -> bool, s: Net, es: seq<Event>)
    requires Bounded(s) && Honest(s) && Runs(isPeerId, s, es)
    ensures Honest(Run(isPeerId, s, es))
    decreases |es|
  {
    if es != [] {
      StepHonest(isPeerId, s, es[0]);
      StepBounded(isPeerId, s, es[0]);
      RunHonest(isPeerId, Step(isPeerId, s, es[0]), es[1..]);
    }
  }

  /** In every run, a node suppresses a copy as a duplicate only if it accepted that packet ID before. */
  lemma {:induction false} SuppressedOnlyAfterAccept(isPeerId: Bytes -> bool, s: Net, es: seq<Event>, t: nat, n: PeerId)
    requires Init(s) && Runs(isPeerId, s, es) && t < |Injections(es)|
    requires t < |Run(isPeerId, s, es).place| && Run(isPeerId, s, es).place[t] == Deduped(n)
    ensures n in Run(isPeerId, s, es).nodes && Misses(Run(isPeerId, s, es).nodes[n].log.accepts, Injections(es)[t].id) != []
  {
    InitBounded(s);
    RunHonest(isPeerId, s, es);
    RunInjects(isPeerId, s, es);
  }
}
