/** In every run each node's queue, route table and local apps are what their own histories make of them. */
module RelayHistory {
  import opened Common
  import opened Relay
  import opened RelayRuns
  import Queue
  import Router

  // ----- Runs from their last step -----

  lemma {:induction false} RunLast(isPeerId: Bytes -> bool, s: Net, es: seq<Event>)
    requires es != [] && Runs(isPeerId, s, es)
    ensures var m := |es| - 1;
      && Runs(isPeerId, s, es[..m]) && Enabled(Run(isPeerId, s, es[..m]), es[m])
      && Run(isPeerId, s, es) == Step(isPeerId, Run(isPeerId, s, es[..m]), es[m])
    decreases |es|
  {
    var m := |es| - 1;
    if m > 0 {
      RunLast(isPeerId, Step(isPeerId, s, es[0]), es[1..]);
      assert es[1..][..m - 1] == es[..m][1..] && es[1..][m - 1] == es[m];
    }
  }

  lemma {:induction false} AtIsRun(isPeerId: Bytes -> bool, s: Net, es: seq<Event>, k: nat)
    requires Runs(isPeerId, s, es) && k <= |es|
    ensures Runs(isPeerId, s, es[..k]) && At(isPeerId, s, es, k) == Run(isPeerId, s, es[..k])
    decreases |es|
  {
    if k > 0 {
      var s', some := Step(isPeerId, s, es[0]), es[..k];
      assert es[1..][..k - 1] == some[1..] && some[0] == es[0];
      AtIsRun(isPeerId, s', es[1..], k - 1);
      assert Runs(isPeerId, s, some) && Run(isPeerId, s, some) == Run(isPeerId, s', some[1..]);
    }
  }

  // ----- Queues -----

  /** What a step does to the queue of node `n`, if anything. */
  function QueueOp(s: Net, e: Event, n: PeerId): Option<Queue.Op> {
    match e
    case Flush(m, r, _, _) => if m == n then Some(Queue.TakeAll(r)) else None
    case SweepQueue(m) => if m == n && n in s.nodes then Some(Queue.SweepAt(s.nodes[n].now)) else None
    case PutBack(j) =>
      if Working(s, j) && s.jobs[j].node == n then Some(Queue.Offer(s.jobs[j].recipient, s.jobs[j].pending[0], s.nodes[n].now)) else None
    case _ => None
  }

  function Queued(q: Queue.Items, op: Option<Queue.Op>): Queue.Items {
    if op.Some? then Queue.Apply(q, op.value) else q
  }

  lemma PutBackQueue(s: Net, j: nat, n: PeerId)
    requires Working(s, j) && n in s.nodes
    ensures var s' := Keep(Pop(s, j), s.jobs[j].node, s.jobs[j].recipient, s.jobs[j].pending[0]);
      n in s'.nodes && s'.nodes[n].queue == Queued(s.nodes[n].queue, QueueOp(s, PutBack(j), n))
  {
  }

  lemma RouteQueue(isPeerId: Bytes -> bool, s: Net, m: PeerId, p: Packet, j: nat, n: PeerId)
    requires n in s.nodes && m in s.nodes && p.copy < |s.place|
    ensures n in Route(isPeerId, s, m, p, j).nodes && Route(isPeerId, s, m, p, j).nodes[n].queue == s.nodes[n].queue
  {
  }

  lemma {:induction false} StepQueue(isPeerId: Bytes -> bool, s: Net, e: Event, n: PeerId)
    requires Enabled(s, e) && n in s.nodes
    ensures n in Step(isPeerId, s, e).nodes && Step(isPeerId, s, e).nodes[n].queue == Queued(s.nodes[n].queue, QueueOp(s, e, n))
  {
    match e
    case Inject(m, p, j) => RouteQueue(isPeerId, Admit(s, p), m, p, j, n);
    case Receive(f, j) => RouteQueue(isPeerId, Land(s, f), s.flights[f].dst, s.flights[f].pkt, j, n);
    case Flush(_, _, _, _) =>
    case PutBack(j) => PutBackQueue(s, j, n);
    case Hand(_) =>
    case Forward(_, _) =>
    case SweepQueue(_) =>
    case Local(_, _) =>
    case _ =>
  }

  /** Everything done to the queue of node `n` in a run. */
  ghost function QueueOps(isPeerId: Bytes -> bool, s: Net, es: seq<Event>, n: PeerId): seq<Queue.Op>
    requires Runs(isPeerId, s, es)
  {
    if es == [] then []
    else
      RunLast(isPeerId, s, es);
      var op := QueueOp(Run(isPeerId, s, es[..|es| - 1]), es[|es| - 1], n);
      QueueOps(isPeerId, s, es[..|es| - 1], n) + if op.Some? then [op.value] else []
  }

  lemma OneMoreOp(ops: seq<Queue.Op>, op: Option<Queue.Op>)
    ensures Queue.Run(ops + if op.Some? then [op.value] else []) == Queued(Queue.Run(ops), op)
  {
    if op.Some? {
      assert (ops + [op.value])[..|ops|] == ops;
    } else {
      assert ops + [] == ops;
    }
  }

  lemma {:induction false} QueueIsHistory(isPeerId: Bytes -> bool, s: Net, es: seq<Event>, n: PeerId)
    requires Init(s) && Runs(isPeerId, s, es) && n in s.nodes
    ensures n in Run(isPeerId, s, es).nodes
    ensures Run(isPeerId, s, es).nodes[n].queue == Queue.Run(QueueOps(isPeerId, s, es, n))
  {
    if es != [] {
      var m := |es| - 1;
      RunLast(isPeerId, s, es);
      QueueIsHistory(isPeerId, s, es[..m], n);
      StepQueue(isPeerId, Run(isPeerId, s, es[..m]), es[m], n);
      OneMoreOp(QueueOps(isPeerId, s, es[..m], n), QueueOp(Run(isPeerId, s, es[..m]), es[m], n));
    }
  }

  /** In every interleaved run, every queue is valid and holds in each slot the last packet offered for its recipient and sender. */
  lemma {:induction false} EveryQueueKeepsNewest(isPeerId: Bytes -> bool, s: Net, es: seq<Event>, n: PeerId)
    requires Init(s) && Runs(isPeerId, s, es) && n in s.nodes
    ensures n in Run(isPeerId, s, es).nodes
    ensures var q := Run(isPeerId, s, es).nodes[n].queue;
      && Queue.Valid(q)
      && forall r, k :: r in q && k in q[r] ==> Queue.LastOffer(QueueOps(isPeerId, s, es, n), r, k) == Some(q[r][k])
  {
    QueueIsHistory(isPeerId, s, es, n);
    Queue.KeepsNewest(QueueOps(isPeerId, s, es, n));
  }

  // ----- Route tables and local apps -----

  predicate SameTables(x: Node, x': Node) {
    x'.now == x.now && x'.routes == x.routes && x'.apps == x.apps
  }

  lemma RouteTables(isPeerId: Bytes -> bool, s: Net, m: PeerId, p: Packet, j: nat, n: PeerId)
    requires n in s.nodes && m in s.nodes && p.copy < |s.place|
    ensures n in Route(isPeerId, s, m, p, j).nodes && SameTables(s.nodes[n], Route(isPeerId, s, m, p, j).nodes[n])
  {
  }

  lemma PutBackTables(s: Net, j: nat, n: PeerId)
    requires Working(s, j) && n in s.nodes
    ensures SameTables(s.nodes[n], Keep(Pop(s, j), s.jobs[j].node, s.jobs[j].recipient, s.jobs[j].pending[0]).nodes[n])
  {
  }

  /** Only a node's own acts change its clock, routes and apps. */
  lemma {:induction false} StepTables(isPeerId: Bytes -> bool, s: Net, e: Event, n: PeerId)
    requires Enabled(s, e) && n in s.nodes
    ensures n in Step(isPeerId, s, e).nodes
    ensures if e.Local? && e.node == n then Step(isPeerId, s, e).nodes[n] == Acted(s.nodes[n], e.act)
      else SameTables(s.nodes[n], Step(isPeerId, s, e).nodes[n])
  {
    match e
    case Inject(m, p, j) => RouteTables(isPeerId, Admit(s, p), m, p, j, n);
    case Receive(f, j) => RouteTables(isPeerId, Land(s, f), s.flights[f].dst, s.flights[f].pkt, j, n);
    case PutBack(j) => PutBackTables(s, j, n);
    case Flush(_, _, _, _) =>
    case Hand(_) =>
    case Forward(_, _) =>
    case SweepQueue(_) =>
    case Local(_, _) =>
    case _ =>
  }

  predicate Reroutes(e: Event, n: PeerId) {
    e.Local? && e.node == n && e.act.Reroute?
  }

  /** The table operations of node `n` in a run. */
  function RouteOps(es: seq<Event>, n: PeerId): seq<Router.Op> {
    if es == [] then []
    else
      var e := es[|es| - 1];
      RouteOps(es[..|es| - 1], n) + if Reroutes(e, n) then [e.act.op] else []
  }

  /** The last time `app` connected to or left node `n` in a run, it connected. */
  predicate Online(es: seq<Event>, n: PeerId, app: PeerId) {
    es != [] && (
      var e := es[|es| - 1];
      if e == Local(n, Connect(app)) then true
      else if e == Local(n, Disconnect(app)) then false
      else Online(es[..|es| - 1], n, app))
  }

  /** The table is what its operations made, and its clock stamped them in order. */
  ghost predicate Follows(x: Node, ops: seq<Router.Op>) {
    && x.routes == Router.Run(ops) && Router.Ordered(ops)
    && (ops != [] ==> ops[|ops| - 1].now <= x.now)
  }

  ghost predicate Remembers(x: Node, es: seq<Event>, n: PeerId) {
    Follows(x, RouteOps(es, n)) && forall app :: app in x.apps <==> Online(es, n, app)
  }

  lemma FollowsMore(x: Node, ops: seq<Router.Op>, op: Router.Op)
    requires Follows(x, ops) && op.now == x.now
    ensures Follows(x.(routes := Router.Apply(x.routes, op)), ops + [op])
  {
    assert (ops + [op])[..|ops|] == ops;
  }

  lemma OneMoreEvent(es: seq<Event>, e: Event, n: PeerId)
    ensures RouteOps(es + [e], n) == if Reroutes(e, n) then RouteOps(es, n) + [e.act.op] else RouteOps(es, n)
    ensures forall app :: Online(es + [e], n, app) <==>
      e == Local(n, Connect(app)) || (e != Local(n, Disconnect(app)) && Online(es, n, app))
  {
    assert (es + [e])[..|es|] == es;
  }

  lemma {:induction false} ActRemembers(x: Node, es: seq<Event>, e: Event, n: PeerId)
    requires Remembers(x, es, n) && e.Local? && e.node == n && CanAct(x, e.act)
    ensures Remembers(Acted(x, e.act), es + [e], n)
  {
    OneMoreEvent(es, e, n);
    if e.act.Reroute? {
      FollowsMore(x, RouteOps(es, n), e.act.op);
    }
  }

  lemma {:induction false} QuietRemembers(x: Node, x': Node, es: seq<Event>, e: Event, n: PeerId)
    requires Remembers(x, es, n) && SameTables(x, x') && !(e.Local? && e.node == n)
    ensures Remembers(x', es + [e], n)
  {
    OneMoreEvent(es, e, n);
  }

  lemma {:induction false} RunRemembers(isPeerId: Bytes -> bool, s: Net, es: seq<Event>, n: PeerId)
    requires Init(s) && Runs(isPeerId, s, es) && n in s.nodes
    ensures n in Run(isPeerId, s, es).nodes && Remembers(Run(isPeerId, s, es).nodes[n], es, n)
  {
    if es != [] {
      var m := |es| - 1;
      RunLast(isPeerId, s, es);
      RunRemembers(isPeerId, s, es[..m], n);
      var s0 := Run(isPeerId, s, es[..m]);
      StepTables(isPeerId, s0, es[m], n);
      assert es == es[..m] + [es[m]];
      if es[m].Local? && es[m].node == n {
        ActRemembers(s0.nodes[n], es[..m], es[m], n);
      } else {
        QuietRemembers(s0.nodes[n], Run(isPeerId, s, es).nodes[n], es[..m], es[m], n);
      }
    }
  }

  /** In every run, a node's lookup is decided by the last announcement or tombstone it processed, and its apps by the last connect or disconnect. */
  lemma {:induction false} TablesAreHistory(isPeerId: Bytes -> bool, s: Net, es: seq<Event>, n: PeerId, target: PeerId)
    requires Init(s) && Runs(isPeerId, s, es) && n in s.nodes
    ensures n in Run(isPeerId, s, es).nodes
    ensures var x := Run(isPeerId, s, es).nodes[n];
      && (target in x.apps <==> Online(es, n, target))
      && Router.Lookup(x.routes, target, x.now) ==
        match Router.Last(RouteOps(es, n), target)
        case Some(r) => if x.now <= r.expires then Some(r.via) else None
        case None => None
  {
    RunRemembers(isPeerId, s, es, n);
    Router.RefinesHistory(RouteOps(es, n), target, Run(isPeerId, s, es).nodes[n].now);
  }
}
