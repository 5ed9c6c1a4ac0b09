/** A node that handles one packet or flush without interruption is a run of the protocol: Manager's operations are Relay's steps. */
module RelaySequential {
  import opened Common
  import opened Relay
  import opened RelayConservation
  import opened RelayRuns
  import opened RelayHistory
  import Queue
  import Router
  import Manager

  lemma {:induction false} RunMore(isPeerId: Bytes -> bool, s: Net, es: seq<Event>, e: Event)
    requires Runs(isPeerId, s, es) && Enabled(Run(isPeerId, s, es), e)
    ensures Runs(isPeerId, s, es + [e]) && Run(isPeerId, s, es + [e]) == Step(isPeerId, Run(isPeerId, s, es), e)
    decreases |es|
  {
    var more := es + [e];
    if es == [] {
      assert more[0] == e && more[1..] == [];
    } else {
      assert more[0] == es[0] && more[1..] == es[1..] + [e];
      RunMore(isPeerId, Step(isPeerId, s, es[0]), es[1..], e);
    }
  }

  /** Some run leads from `s` to `s'`, where every copy is accounted for. */
  ghost predicate Leads(isPeerId: Bytes -> bool, s: Net, s': Net) {
    exists es :: Runs(isPeerId, s, es) && Run(isPeerId, s, es) == s' && Located(s')
  }

  lemma LeadsStep(isPeerId: Bytes -> bool, s: Net, s': Net, e: Event)
    requires Leads(isPeerId, s, s') && Enabled(s', e)
    ensures Leads(isPeerId, s, Step(isPeerId, s', e))
  {
    var es :| Runs(isPeerId, s, es) && Run(isPeerId, s, es) == s' && Located(s');
    RunMore(isPeerId, s, es, e);
    StepOk(isPeerId, s', e);
  }

  lemma LeadsOn(isPeerId: Bytes -> bool, a: Net, b: Net, c: Net)
    requires Leads(isPeerId, a, b) && Leads(isPeerId, b, c)
    ensures Leads(isPeerId, a, c)
  {
    var fs :| Runs(isPeerId, b, fs) && Run(isPeerId, b, fs) == c && Located(c);
    LeadsAlong(isPeerId, a, b, fs);
  }

  lemma {:induction false} LeadsAlong(isPeerId: Bytes -> bool, a: Net, b: Net, es: seq<Event>)
    requires Leads(isPeerId, a, b) && Runs(isPeerId, b, es)
    ensures Leads(isPeerId, a, Run(isPeerId, b, es))
  {
    if es != [] {
      RunLast(isPeerId, b, es);
      LeadsAlong(isPeerId, a, b, es[..|es| - 1]);
      LeadsStep(isPeerId, a, Run(isPeerId, b, es[..|es| - 1]), es[|es| - 1]);
    }
  }

  lemma LeadsSelf(isPeerId: Bytes -> bool, s: Net)
    requires Located(s)
    ensures Leads(isPeerId, s, s)
  {
    assert Runs(isPeerId, s, []) && Run(isPeerId, s, []) == s;
  }

  /** Reached states are well formed. */
  lemma LeadsWorks(isPeerId: Bytes -> bool, s: Net, s': Net, j: nat)
    requires Leads(isPeerId, s, s') && j in s'.jobs
    ensures |s'.place| == |s'.injected| && (s'.jobs[j].pending != [] ==> Working(s', j))
  {
    assert Located(s');
    assert JobOk(s', j, s'.jobs[j]);
  }

  /** The node after trying to forward each of `ps` in turn, with the clock readings of Manager.RelayManager.FlushQueued. */
  function Worked(x: Node, r: PeerId, ps: seq<Packet>, hop: Option<PeerId>, clock: nat -> Time, link: (PeerId, Packet) -> bool): Node {
    if ps == [] then x
    else
      var m := |ps| - 1;
      var y := Worked(x, r, ps[..m], hop, clock, link);
      if Manager.Stays(ps[m], hop, link) then y.(now := clock(2 + m), queue := Queue.Stored(y.queue, r, ps[m], clock(2 + m)))
      else y.(now := clock(2 + m), log := y.log.(sent := y.log.sent + [Flight(hop.value, ps[m])]))
  }

  function StageOf(hop: Option<PeerId>): Stage {
    if hop.None? then Returning else Sending(hop.value)
  }

  function Flights(hop: PeerId, ps: seq<Packet>): seq<Flight> {
    if ps == [] then [] else Flights(hop, ps[..|ps| - 1]) + [Flight(hop, ps[|ps| - 1])]
  }

  /** What Manager computes for the bucket is what the node then has. */
  lemma {:induction false} WorkedBucket(x: Node, r: PeerId, ps: seq<Packet>, hop: Option<PeerId>, clock: nat -> Time,
                                        link: (PeerId, Packet) -> bool)
    requires r !in x.queue
    ensures var y := Worked(x, r, ps, hop, clock, link);
      Queue.BucketOf(y.queue, r) == Manager.Forwarding(ps, hop, clock, link).0 && y.queue - {r} == x.queue
  {
    if ps != [] {
      var m := |ps| - 1;
      WorkedBucket(x, r, ps[..m], hop, clock, link);
      Queue.StoredBucket(Worked(x, r, ps[..m], hop, clock, link).queue, r, ps[m], clock(2 + m));
    }
  }

  /** And what it computes as sent is what the node logs. */
  lemma {:induction false} WorkedLog(x: Node, r: PeerId, ps: seq<Packet>, hop: Option<PeerId>, clock: nat -> Time,
                                     link: (PeerId, Packet) -> bool)
    ensures var sent := Manager.Forwarding(ps, hop, clock, link).1;
      && Worked(x, r, ps, hop, clock, link).log == x.log.(sent := x.log.sent + (if hop.Some? then Flights(hop.value, sent) else []))
      && (hop.None? ==> sent == [])
  {
    if ps == [] {
      assert x.log.sent + [] == x.log.sent;
    } else {
      var m := |ps| - 1;
      WorkedLog(x, r, ps[..m], hop, clock, link);
      if !Manager.Stays(ps[m], hop, link) {
        FlightsMore(x.log.sent, hop.value, Manager.Forwarding(ps[..m], hop, clock, link).1, ps[m]);
      }
    }
  }

  lemma FlightsMore(log: seq<Flight>, hop: PeerId, sent: seq<Packet>, p: Packet)
    ensures log + Flights(hop, sent + [p]) == log + Flights(hop, sent) + [Flight(hop, p)]
  {
    assert (sent + [p])[..|sent|] == sent;
  }

  /** Job `j` lets go of its first packet, and nothing else of the network changes but the node itself and `flights`. */
  ghost predicate Moved(s: Net, s': Net, j: nat, x': Node, flights: set<nat>)
    requires Working(s, j)
  {
    && s'.nodes == s.nodes[s.jobs[j].node := x']
    && s'.jobs == s.jobs[j := s.jobs[j].(pending := s.jobs[j].pending[1..])] && s'.flights.Keys == s.flights.Keys + flights
  }

  function Ticked(s: Net, n: PeerId, to: Time): Net
    requires n in s.nodes
  {
    s.(nodes := s.nodes[n := s.nodes[n].(now := to)])
  }

  lemma OneTick(isPeerId: Bytes -> bool, s: Net, n: PeerId, to: Time)
    requires |s.place| == |s.injected| && n in s.nodes && s.nodes[n].now <= to
    ensures Enabled(s, Local(n, Tick(to))) && Step(isPeerId, s, Local(n, Tick(to))) == Ticked(s, n, to)
  {
  }

  lemma OneBack(isPeerId: Bytes -> bool, s: Net, j: nat)
    requires Enabled(s, PutBack(j))
    ensures var job := s.jobs[j];
      var x := s.nodes[job.node];
      Moved(s, Step(isPeerId, s, PutBack(j)), j, x.(queue := Queue.Stored(x.queue, job.recipient, job.pending[0], x.now)), {})
  {
  }

  lemma OneSend(isPeerId: Bytes -> bool, s: Net, j: nat, f: nat)
    requires Enabled(s, Forward(j, f))
    ensures var job := s.jobs[j];
      var x := s.nodes[job.node];
      Moved(s, Step(isPeerId, s, Forward(j, f)), j, x.(log := x.log.(sent := x.log.sent + [Flight(job.stage.via, job.pending[0])])), {f})
  {
  }

  lemma OneHand(isPeerId: Bytes -> bool, s: Net, j: nat)
    requires Enabled(s, Hand(j))
    ensures var job := s.jobs[j];
      var x := s.nodes[job.node];
      Moved(s, Step(isPeerId, s, Hand(j)), j, x.(log := x.log.(handed := x.log.handed + [Handing(job.recipient, job.pending[0])])), {})
  {
  }

  /** What stays the same while one job works through `ps` for `r` at node `n`: the stage, the clock readings, which streams succeed, unused stream numbers. */
  datatype Shift = Shift(n: PeerId, j: nat, r: PeerId, ps: seq<Packet>, hop: Option<PeerId>, clock: nat -> Time,
                         link: (PeerId, Packet) -> bool, spare: nat)

  ghost predicate Steady(clock: nat -> Time) {
    forall i: nat :: clock(i) <= clock(i + 1)
  }

  /** From `s`, the first `k` packets have been tried. */
  ghost predicate Mid(s: Net, s': Net, w: Shift, k: nat) {
    && w.n in s.nodes && k <= |w.ps|
    && s'.nodes == s.nodes[w.n := Worked(s.nodes[w.n], w.r, w.ps[..k], w.hop, w.clock, w.link)]
    && s'.nodes[w.n].now == w.clock(1 + k)
    && s'.jobs == s.jobs[w.j := Job(w.n, w.r, w.ps[k..], StageOf(w.hop))]
    && forall f :: f in s'.flights.Keys ==> f < w.spare + k
  }

  lemma WorkedMore(x: Node, y: Node, w: Shift, k: nat)
    requires k < |w.ps| && y == Worked(x, w.r, w.ps[..k], w.hop, w.clock, w.link).(now := w.clock(2 + k))
    ensures Worked(x, w.r, w.ps[..k + 1], w.hop, w.clock, w.link) ==
      if Manager.Stays(w.ps[k], w.hop, w.link) then y.(queue := Queue.Stored(y.queue, w.r, w.ps[k], y.now))
      else y.(log := y.log.(sent := y.log.sent + [Flight(w.hop.value, w.ps[k])]))
    ensures Worked(x, w.r, w.ps[..k + 1], w.hop, w.clock, w.link).now == w.clock(2 + k)
  {
    assert w.ps[..k + 1][..k] == w.ps[..k];
  }

  /** The clock has moved on to when packet `k` is tried. */
  ghost predicate Poised(s: Net, s': Net, w: Shift, k: nat) {
    && w.n in s.nodes && k < |w.ps|
    && s'.nodes == s.nodes[w.n := Worked(s.nodes[w.n], w.r, w.ps[..k], w.hop, w.clock, w.link).(now := w.clock(2 + k))]
    && s'.jobs == s.jobs[w.j := Job(w.n, w.r, w.ps[k..], StageOf(w.hop))]
    && (forall f :: f in s'.flights.Keys ==> f < w.spare + k)
  }

  lemma {:induction false} WorkTick(isPeerId: Bytes -> bool, s: Net, s': Net, w: Shift, k: nat)
    requires Mid(s, s', w, k) && k < |w.ps| && Steady(w.clock) && |s'.place| == |s'.injected|
    ensures Enabled(s', Local(w.n, Tick(w.clock(2 + k)))) && Poised(s, Step(isPeerId, s', Local(w.n, Tick(w.clock(2 + k)))), w, k)
  {
    assert w.clock(1 + k) <= w.clock(1 + k + 1);
    OneTick(isPeerId, s', w.n, w.clock(2 + k));
  }

  lemma MovedOn(s: Net, s': Net, s'': Net, w: Shift, k: nat, flights: set<nat>)
    requires Poised(s, s', w, k) && Working(s', w.j) && (forall f :: f in flights ==> f == w.spare + k)
    requires Moved(s', s'', w.j, Worked(s.nodes[w.n], w.r, w.ps[..k + 1], w.hop, w.clock, w.link), flights)
    ensures Mid(s, s'', w, k + 1)
  {
    WorkedMore(s.nodes[w.n], s'.nodes[w.n], w, k);
    assert w.ps[k..][1..] == w.ps[k + 1..];
  }

  lemma {:induction false} WorkBack(isPeerId: Bytes -> bool, s: Net, s': Net, w: Shift, k: nat)
    requires Poised(s, s', w, k) && Working(s', w.j) && |s'.place| == |s'.injected| && Manager.Stays(w.ps[k], w.hop, w.link)
    ensures Enabled(s', PutBack(w.j)) && Mid(s, Step(isPeerId, s', PutBack(w.j)), w, k + 1)
  {
    WorkedMore(s.nodes[w.n], s'.nodes[w.n], w, k);
    OneBack(isPeerId, s', w.j);
    MovedOn(s, s', Step(isPeerId, s', PutBack(w.j)), w, k, {});
  }

  lemma {:induction false} WorkSend(isPeerId: Bytes -> bool, s: Net, s': Net, w: Shift, k: nat)
    requires Poised(s, s', w, k) && Working(s', w.j) && |s'.place| == |s'.injected| && !Manager.Stays(w.ps[k], w.hop, w.link)
    ensures Enabled(s', Forward(w.j, w.spare + k)) && Mid(s, Step(isPeerId, s', Forward(w.j, w.spare + k)), w, k + 1)
  {
    WorkedMore(s.nodes[w.n], s'.nodes[w.n], w, k);
    OneSend(isPeerId, s', w.j, w.spare + k);
    MovedOn(s, s', Step(isPeerId, s', Forward(w.j, w.spare + k)), w, k, {w.spare + k});
  }

  /** Some run from `s` has tried the first `k` packets, and no other. */
  ghost predicate CanReach(isPeerId: Bytes -> bool, s: Net, w: Shift, k: nat) {
    exists s' :: Leads(isPeerId, s, s') && Mid(s, s', w, k)
  }

  ghost predicate CanPoise(isPeerId: Bytes -> bool, s: Net, w: Shift, k: nat) {
    exists s' :: Leads(isPeerId, s, s') && Poised(s, s', w, k)
  }

  lemma {:induction false} ReachTick(isPeerId: Bytes -> bool, s: Net, w: Shift, k: nat)
    requires CanReach(isPeerId, s, w, k) && k < |w.ps| && Steady(w.clock)
    ensures CanPoise(isPeerId, s, w, k)
  {
    var s' :| Leads(isPeerId, s, s') && Mid(s, s', w, k);
    LeadsWorks(isPeerId, s, s', w.j);
    WorkTick(isPeerId, s, s', w, k);
    LeadsStep(isPeerId, s, s', Local(w.n, Tick(w.clock(2 + k))));
  }

  lemma {:induction false} ReachNext(isPeerId: Bytes -> bool, s: Net, w: Shift, k: nat)
    requires CanPoise(isPeerId, s, w, k) && k < |w.ps|
    ensures CanReach(isPeerId, s, w, k + 1)
  {
    var s' :| Leads(isPeerId, s, s') && Poised(s, s', w, k);
    LeadsWorks(isPeerId, s, s', w.j);
    if Manager.Stays(w.ps[k], w.hop, w.link) {
      WorkBack(isPeerId, s, s', w, k);
      LeadsStep(isPeerId, s, s', PutBack(w.j));
    } else {
      WorkSend(isPeerId, s, s', w, k);
      LeadsStep(isPeerId, s, s', Forward(w.j, w.spare + k));
    }
  }

  /** A job can work through its packets without interruption. */
  lemma {:induction false} Work(isPeerId: Bytes -> bool, s: Net, w: Shift, k: nat)
    requires Located(s) && Mid(s, s, w, 0) && k <= |w.ps| && Steady(w.clock)
    ensures CanReach(isPeerId, s, w, k)
  {
    if k == 0 {
      LeadsSelf(isPeerId, s);
    } else {
      Work(isPeerId, s, w, k - 1);
      ReachTick(isPeerId, s, w, k - 1);
      ReachNext(isPeerId, s, w, k - 1);
    }
  }

  function Handings(r: PeerId, ps: seq<Packet>): seq<Handing> {
    if ps == [] then [] else Handings(r, ps[..|ps| - 1]) + [Handing(r, ps[|ps| - 1])]
  }

  function HandedAll(x: Node, r: PeerId, ps: seq<Packet>): Node {
    x.(log := x.log.(handed := x.log.handed + Handings(r, ps)))
  }

  /** From `s`, the first `k` packets have been handed over. */
  ghost predicate Hands(s: Net, s': Net, w: Shift, k: nat) {
    && w.n in s.nodes && k <= |w.ps|
    && s'.nodes == s.nodes[w.n := HandedAll(s.nodes[w.n], w.r, w.ps[..k])]
    && s'.jobs == s.jobs[w.j := Job(w.n, w.r, w.ps[k..], Delivering)]
  }

  lemma HandedMore(x: Node, w: Shift, k: nat)
    requires k < |w.ps|
    ensures var y := HandedAll(x, w.r, w.ps[..k]);
      y.(log := y.log.(handed := y.log.handed + [Handing(w.r, w.ps[k])])) == HandedAll(x, w.r, w.ps[..k + 1])
  {
    assert w.ps[..k + 1][..k] == w.ps[..k];
  }

  lemma {:induction false} HandNext(isPeerId: Bytes -> bool, s: Net, s': Net, w: Shift, k: nat)
    requires Hands(s, s', w, k) && k < |w.ps| && Working(s', w.j) && |s'.place| == |s'.injected|
    ensures Enabled(s', Hand(w.j)) && Hands(s, Step(isPeerId, s', Hand(w.j)), w, k + 1)
  {
    OneHand(isPeerId, s', w.j);
    HandedMore(s.nodes[w.n], w, k);
    HandedOn(s, s', Step(isPeerId, s', Hand(w.j)), w, k);
  }

  lemma HandedOn(s: Net, s': Net, s'': Net, w: Shift, k: nat)
    requires Hands(s, s', w, k) && k < |w.ps| && Working(s', w.j) && Moved(s', s'', w.j, HandedAll(s.nodes[w.n], w.r, w.ps[..k + 1]), {})
    ensures Hands(s, s'', w, k + 1)
  {
    assert w.ps[k..][1..] == w.ps[k + 1..];
  }

  ghost predicate CanHand(isPeerId: Bytes -> bool, s: Net, w: Shift, k: nat) {
    exists s' :: Leads(isPeerId, s, s') && Hands(s, s', w, k)
  }

  lemma {:induction false} HandAll(isPeerId: Bytes -> bool, s: Net, w: Shift, k: nat)
    requires Located(s) && Hands(s, s, w, 0) && k <= |w.ps|
    ensures CanHand(isPeerId, s, w, k)
  {
    if k == 0 {
      LeadsSelf(isPeerId, s);
    } else {
      HandAll(isPeerId, s, w, k - 1);
      HandOn(isPeerId, s, w, k - 1);
    }
  }

  lemma {:induction false} HandOn(isPeerId: Bytes -> bool, s: Net, w: Shift, k: nat)
    requires CanHand(isPeerId, s, w, k) && k < |w.ps|
    ensures CanHand(isPeerId, s, w, k + 1)
  {
    var s' :| Leads(isPeerId, s, s') && Hands(s, s', w, k);
    LeadsWorks(isPeerId, s, s', w.j);
    HandNext(isPeerId, s, s', w, k);
    LeadsStep(isPeerId, s, s', Hand(w.j));
  }

  // ----- A job from start to end -----

  /** Where the manager of node `n` would forward to. */
  function NextHop(x: Node, n: PeerId, r: PeerId, now: Time): Option<PeerId> {
    var via := Router.Lookup(x.routes, r, now);
    if via == Some(n) then None else via
  }

  /** The node when an uninterrupted job is through. */
  function Outcome(x: Node, w: Shift): Node {
    if w.r in x.apps then HandedAll(x, w.r, w.ps)
    else Worked(x.(now := w.clock(1)), w.r, w.ps, w.hop, w.clock, w.link)
  }

  /** The clock, the route and the stream numbers of `w` fit the state. */
  ghost predicate Timely(s: Net, w: Shift) {
    && w.n in s.nodes && s.nodes[w.n].now == w.clock(0) && Steady(w.clock)
    && w.hop == NextHop(s.nodes[w.n], w.n, w.r, w.clock(1))
    && forall f :: f in s.flights.Keys ==> f < w.spare
  }

  /** A job about to start, with the clock and the numbers of `w`. */
  ghost predicate Starts(s: Net, w: Shift) {
    Timely(s, w) && w.j in s.jobs && s.jobs[w.j] == Job(w.n, w.r, w.ps, Picking)
  }

  /** Some run from `s` ends the job and leaves the network as the outcome says. */
  ghost predicate Through(isPeerId: Bytes -> bool, s: Net, w: Shift) {
    exists s' :: Leads(isPeerId, s, s') && w.n in s.nodes
      && s'.jobs == s.jobs - {w.j} && s'.nodes == s.nodes[w.n := Outcome(s.nodes[w.n], w)]
  }

  lemma {:induction false} LocalThrough(isPeerId: Bytes -> bool, s: Net, w: Shift)
    requires Located(s) && Starts(s, w) && w.r in s.nodes[w.n].apps
    ensures Through(isPeerId, s, w)
  {
    var s1 := SetStage(s, w.j, Delivering);
    LeadsSelf(isPeerId, s);
    LeadsStep(isPeerId, s, s, Pick(w.j));
    assert Located(s1) by {
      StageOk(s, w.j, Delivering);
    }
    HandStart(s, s1, w);
    HandAll(isPeerId, s1, w, |w.ps|);
    var s2 :| Leads(isPeerId, s1, s2) && Hands(s1, s2, w, |w.ps|);
    LeadsWorks(isPeerId, s1, s2, w.j);
    HandEnd(isPeerId, s, s1, s2, w);
    LeadsStep(isPeerId, s1, s2, Finish(w.j));
    LeadsOn(isPeerId, s, s1, Step(isPeerId, s2, Finish(w.j)));
  }

  lemma HandStart(s: Net, s1: Net, w: Shift)
    requires Starts(s, w) && s1 == SetStage(s, w.j, Delivering)
    ensures Hands(s1, s1, w, 0)
  {
    var x := s1.nodes[w.n];
    assert w.ps[..0] == [] && w.ps[0..] == w.ps;
    assert x.log.handed + [] == x.log.handed;
    assert HandedAll(x, w.r, []) == x;
  }

  lemma HandEnd(isPeerId: Bytes -> bool, s: Net, s1: Net, s2: Net, w: Shift)
    requires Starts(s, w) && w.r in s.nodes[w.n].apps && s1 == SetStage(s, w.j, Delivering) && Hands(s1, s2, w, |w.ps|)
    requires |s2.place| == |s2.injected|
    ensures Enabled(s2, Finish(w.j))
    ensures var s3 := Step(isPeerId, s2, Finish(w.j));
      s3.jobs == s.jobs - {w.j} && s3.nodes == s.nodes[w.n := Outcome(s.nodes[w.n], w)]
  {
    assert w.ps[|w.ps|..] == [] && w.ps[..|w.ps|] == w.ps;
    FinishStep(isPeerId, s2, w.j);
    assert s2.jobs - {w.j} == s.jobs - {w.j};
  }

  /** Before the first packet is tried: the local table and the route have been read. */
  function Underway(s: Net, w: Shift): Net
    requires w.j in s.jobs && w.n in s.nodes
  {
    SetStage(Ticked(SetStage(s, w.j, Finding), w.n, w.clock(1)), w.j, StageOf(w.hop))
  }

  lemma {:induction false} ReadTables(isPeerId: Bytes -> bool, s: Net, w: Shift)
    requires Located(s) && Starts(s, w) && w.r !in s.nodes[w.n].apps
    ensures Leads(isPeerId, s, Underway(s, w)) && Located(Underway(s, w))
  {
    var s1 := SetStage(s, w.j, Finding);
    var s2 := Ticked(s1, w.n, w.clock(1));
    LeadsSelf(isPeerId, s);
    LeadsStep(isPeerId, s, s, Pick(w.j));
    StageOk(s, w.j, Finding);
    assert w.clock(0) <= w.clock(0 + 1);
    OneTick(isPeerId, s1, w.n, w.clock(1));
    LeadsStep(isPeerId, s, s1, Local(w.n, Tick(w.clock(1))));
    FindsHop(isPeerId, s2, w);
    LeadsStep(isPeerId, s, s2, Find(w.j));
    StageOk(s2, w.j, StageOf(w.hop));
  }

  lemma FindsHop(isPeerId: Bytes -> bool, s: Net, w: Shift)
    requires w.n in s.nodes && w.j in s.jobs && s.jobs[w.j].node == w.n && s.jobs[w.j].recipient == w.r && s.jobs[w.j].stage.Finding?
    requires |s.place| == |s.injected| && s.nodes[w.n].now == w.clock(1) && w.hop == NextHop(s.nodes[w.n], w.n, w.r, w.clock(1))
    ensures Enabled(s, Find(w.j)) && Step(isPeerId, s, Find(w.j)) == SetStage(s, w.j, StageOf(w.hop))
    ensures StageOf(w.hop).Sending? ==> StageOf(w.hop).via != w.n
  {
  }

  lemma {:induction false} WorkStart(s: Net, w: Shift)
    requires Timely(s, w) && w.j in s.jobs && s.jobs[w.j] == Job(w.n, w.r, w.ps, Picking)
    ensures Mid(Underway(s, w), Underway(s, w), w, 0)
  {
    assert w.ps[..0] == [] && w.ps[0..] == w.ps;
  }

  lemma {:induction false} WorkEnd(isPeerId: Bytes -> bool, s: Net, s': Net, w: Shift)
    requires Starts(s, w) && w.r !in s.nodes[w.n].apps && Mid(Underway(s, w), s', w, |w.ps|) && |s'.place| == |s'.injected|
    ensures Enabled(s', Finish(w.j))
    ensures var s'' := Step(isPeerId, s', Finish(w.j));
      s''.jobs == s.jobs - {w.j} && s''.nodes == s.nodes[w.n := Outcome(s.nodes[w.n], w)]
  {
    MidEnd(s, s', w);
    FinishStep(isPeerId, s', w.j);
  }

  lemma FinishStep(isPeerId: Bytes -> bool, s: Net, j: nat)
    requires |s.place| == |s.injected| && j in s.jobs && s.jobs[j].pending == []
    ensures Enabled(s, Finish(j)) && Step(isPeerId, s, Finish(j)) == s.(jobs := s.jobs - {j})
  {
  }

  lemma MidEnd(s: Net, s': Net, w: Shift)
    requires Timely(s, w) && w.j in s.jobs && w.r !in s.nodes[w.n].apps && Mid(Underway(s, w), s', w, |w.ps|)
    ensures w.j in s'.jobs && s'.jobs[w.j].pending == [] && s'.jobs - {w.j} == s.jobs - {w.j}
    ensures s'.nodes == s.nodes[w.n := Outcome(s.nodes[w.n], w)]
  {
    assert w.ps[|w.ps|..] == [] && w.ps[..|w.ps|] == w.ps;
  }

  lemma {:induction false} AwayThrough(isPeerId: Bytes -> bool, s: Net, w: Shift)
    requires Located(s) && Starts(s, w) && w.r !in s.nodes[w.n].apps
    ensures Through(isPeerId, s, w)
  {
    var s1 := Underway(s, w);
    ReadTables(isPeerId, s, w);
    WorkStart(s, w);
    Work(isPeerId, s1, w, |w.ps|);
    var s2 :| Leads(isPeerId, s1, s2) && Mid(s1, s2, w, |w.ps|);
    LeadsWorks(isPeerId, s1, s2, w.j);
    WorkEnd(isPeerId, s, s2, w);
    LeadsStep(isPeerId, s1, s2, Finish(w.j));
    LeadsOn(isPeerId, s, s1, Step(isPeerId, s2, Finish(w.j)));
  }

  lemma {:induction false} JobThrough(isPeerId: Bytes -> bool, s: Net, w: Shift)
    requires Located(s) && Starts(s, w)
    ensures Through(isPeerId, s, w)
  {
    if w.r in s.nodes[w.n].apps {
      LocalThrough(isPeerId, s, w);
    } else {
      AwayThrough(isPeerId, s, w);
    }
  }

  lemma {:induction false} JobEnds(isPeerId: Bytes -> bool, s: Net, s1: Net, w: Shift) returns (s': Net)
    requires Leads(isPeerId, s, s1) && Starts(s1, w)
    ensures Leads(isPeerId, s, s') && s'.jobs == s1.jobs - {w.j} && s'.nodes == s1.nodes[w.n := Outcome(s1.nodes[w.n], w)]
  {
    assert Located(s1);
    JobThrough(isPeerId, s1, w);
    s' :| Leads(isPeerId, s1, s') && s'.jobs == s1.jobs - {w.j} && s'.nodes == s1.nodes[w.n := Outcome(s1.nodes[w.n], w)];
    LeadsOn(isPeerId, s, s1, s');
  }

  // ----- Manager's operations as runs -----

  /** What Manager.RelayManager.FlushQueued promises, of a node of the network, with its logs. */
  ghost predicate FlushesLike(x: Node, x': Node, r: PeerId, hop: Option<PeerId>, clock: nat -> Time, link: (PeerId, Packet) -> bool,
                              handed: seq<Packet>, sent: seq<Packet>) {
    var taken := Queue.Unexpired(Queue.BucketOf(x.queue, r), clock(0));
    && x'.queue - {r} == x.queue - {r}
    && (r in x.apps ==> Queue.Lists(handed, taken) && sent == [] && r !in x'.queue)
    && (r !in x.apps ==> handed == [] && Manager.Sorted(taken, Queue.BucketOf(x'.queue, r), sent, hop, link))
    && x'.log.handed == x.log.handed + Handings(r, handed)
    && x'.log.sent == x.log.sent + (if hop.Some? then Flights(hop.value, sent) else [])
  }

  ghost predicate CanFlushLike(isPeerId: Bytes -> bool, s: Net, n: PeerId, r: PeerId, clock: nat -> Time, link: (PeerId, Packet) -> bool)
    requires n in s.nodes
  {
    exists s', handed, sent :: Leads(isPeerId, s, s') && s'.jobs == s.jobs && n in s'.nodes && s'.nodes - {n} == s.nodes - {n}
      && FlushesLike(s.nodes[n], s'.nodes[n], r, NextHop(s.nodes[n], n, r, clock(1)), clock, link, handed, sent)
  }

  lemma LocalLogs(x: Node, hop: Option<PeerId>)
    ensures x.log.sent == x.log.sent + (if hop.Some? then Flights(hop.value, []) else [])
  {
  }

  lemma {:induction false} LocalFlushes(x: Node, w: Shift)
    requires Queue.Lists(w.ps, Queue.Unexpired(Queue.BucketOf(x.queue, w.r), w.clock(0))) && w.r in x.apps
    ensures FlushesLike(x, Outcome(x.(queue := x.queue - {w.r}), w), w.r, w.hop, w.clock, w.link, w.ps, [])
  {
    var y := x.(queue := x.queue - {w.r});
    assert Outcome(y, w) == HandedAll(y, w.r, w.ps);
    LocalLogs(x, w.hop);
  }

  lemma {:induction false} AwayFlushes(x: Node, w: Shift)
    requires Queue.Lists(w.ps, Queue.Unexpired(Queue.BucketOf(x.queue, w.r), w.clock(0))) && w.r !in x.apps && Queue.Valid(x.queue)
    ensures FlushesLike(x, Outcome(x.(queue := x.queue - {w.r}), w), w.r, w.hop, w.clock, w.link, [],
                        Manager.Forwarding(w.ps, w.hop, w.clock, w.link).1)
  {
    var taken := Queue.Unexpired(Queue.BucketOf(x.queue, w.r), w.clock(0));
    Queue.UnexpiredCard(Queue.BucketOf(x.queue, w.r), w.clock(0));
    Manager.FlushSorts(w.ps, taken, w.hop, w.clock, w.link);
    WorkedBucket(x.(queue := x.queue - {w.r}, now := w.clock(1)), w.r, w.ps, w.hop, w.clock, w.link);
    WorkedLog(x.(queue := x.queue - {w.r}, now := w.clock(1)), w.r, w.ps, w.hop, w.clock, w.link);
    assert x.log.handed + [] == x.log.handed;
  }

  lemma {:induction false} FlushStarts(isPeerId: Bytes -> bool, s: Net, w: Shift) returns (s': Net)
    requires Located(s) && Enabled(s, Flush(w.n, w.r, w.ps, w.j)) && w.ps != [] && Timely(s, w)
    ensures Leads(isPeerId, s, s') && Starts(s', w) && s'.jobs - {w.j} == s.jobs
    ensures s'.nodes == s.nodes[w.n := s.nodes[w.n].(queue := s.nodes[w.n].queue - {w.r})]
  {
    s' := TakeBucket(s, w.n, w.r, w.ps, w.j);
    assert Leads(isPeerId, s, s') by {
      LeadsSelf(isPeerId, s);
      LeadsStep(isPeerId, s, s, Flush(w.n, w.r, w.ps, w.j));
    }
  }

  lemma {:induction false} FlushThrough(isPeerId: Bytes -> bool, s: Net, w: Shift) returns (s': Net)
    requires Located(s) && Enabled(s, Flush(w.n, w.r, w.ps, w.j)) && w.ps != [] && Timely(s, w)
    ensures Leads(isPeerId, s, s') && s'.jobs == s.jobs
    ensures s'.nodes == s.nodes[w.n := Outcome(s.nodes[w.n].(queue := s.nodes[w.n].queue - {w.r}), w)]
  {
    var s1 := FlushStarts(isPeerId, s, w);
    s' := JobEnds(isPeerId, s, s1, w);
  }

  /** FlushQueued run without interruption is a run of the network, with the outcome Manager.RelayManager.FlushQueued promises. */
  lemma {:induction false} FlushQueuedIsARun(isPeerId: Bytes -> bool, s: Net, n: PeerId, r: PeerId, ps: seq<Packet>, j: nat,
                                             clock: nat -> Time, link: (PeerId, Packet) -> bool, spare: nat)
    requires Located(s) && Enabled(s, Flush(n, r, ps, j)) && ps != [] && Queue.Valid(s.nodes[n].queue)
    requires s.nodes[n].now == clock(0) && Steady(clock) && forall f :: f in s.flights.Keys ==> f < spare
    ensures CanFlushLike(isPeerId, s, n, r, clock, link)
  {
    var w := Shift(n, j, r, ps, NextHop(s.nodes[n], n, r, clock(1)), clock, link, spare);
    var s' := FlushThrough(isPeerId, s, w);
    var sent := if r in s.nodes[n].apps then [] else Manager.Forwarding(ps, w.hop, clock, link).1;
    if r in s.nodes[n].apps {
      LocalFlushes(s.nodes[n], w);
    } else {
      AwayFlushes(s.nodes[n], w);
    }
    FlushShown(isPeerId, s, s', w, if r in s.nodes[n].apps then ps else [], sent);
  }

  lemma FlushShown(isPeerId: Bytes -> bool, s: Net, s': Net, w: Shift, handed: seq<Packet>, sent: seq<Packet>)
    requires Timely(s, w) && Leads(isPeerId, s, s') && s'.jobs == s.jobs
    requires s'.nodes == s.nodes[w.n := Outcome(s.nodes[w.n].(queue := s.nodes[w.n].queue - {w.r}), w)]
    requires FlushesLike(s.nodes[w.n], s'.nodes[w.n], w.r, w.hop, w.clock, w.link, handed, sent)
    ensures CanFlushLike(isPeerId, s, w.n, w.r, w.clock, w.link)
  {
    assert s'.nodes - {w.n} == s.nodes - {w.n};
  }

  /** What Manager.RelayManager.Route promises, of a node of the network, with its logs. */
  ghost predicate RoutesLike(isPeerId: Bytes -> bool, x: Node, x': Node, p: Packet, hop: Option<PeerId>, clock: nat -> Time,
                             link: (PeerId, Packet) -> bool, out: Manager.Outcome) {
    && (out.Duplicate? <==> p.id in x.dedup)
    && x'.dedup == (if out.Duplicate? then x.dedup else x.dedup[p.id := clock(0)])
    && (!out.Duplicate? ==> (out.InvalidRecipient? <==> !isPeerId(p.recipient)))
    && (!out.Duplicate? && !out.InvalidRecipient? ==> (out.Delivered? <==> p.recipient in x.apps))
    && (!out.Duplicate? && !out.InvalidRecipient? && !out.Delivered? ==>
      out == if hop.Some? && link(hop.value, p) then Manager.Forwarded(hop.value) else Manager.Kept)
    && x'.queue == (if out.Kept? then Queue.Stored(x.queue, p.recipient, p, clock(2)) else x.queue)
    && x'.log.handed == x.log.handed + (if out.Delivered? then [Handing(p.recipient, p)] else [])
    && x'.log.sent == x.log.sent + (if out.Forwarded? then [Flight(out.via, p)] else [])
  }

  ghost predicate CanRouteLike(isPeerId: Bytes -> bool, s: Net, n: PeerId, p: Packet, clock: nat -> Time, link: (PeerId, Packet) -> bool)
    requires n in s.nodes
  {
    exists s', out :: Leads(isPeerId, s, s') && s'.jobs == s.jobs && n in s'.nodes && s'.nodes - {n} == s.nodes - {n}
      && RoutesLike(isPeerId, s.nodes[n], s'.nodes[n], p, NextHop(s.nodes[n], n, p.recipient, clock(1)), clock, link, out)
  }

  /** The node once Route has recorded the packet's ID. */
  function Accepting(x: Node, p: Packet): Node {
    x.(dedup := x.dedup[p.id := x.now], log := x.log.(accepts := x.log.accepts + [Accept(p.id, x.now)]))
  }

  function RouteOutcome(isPeerId: Bytes -> bool, x: Node, p: Packet, hop: Option<PeerId>, link: (PeerId, Packet) -> bool): Manager.Outcome {
    if p.id in x.dedup then Manager.Duplicate
    else if !isPeerId(p.recipient) then Manager.InvalidRecipient
    else if p.recipient in x.apps then Manager.Delivered
    else if Manager.Stays(p, hop, link) then Manager.Kept
    else Manager.Forwarded(hop.value)
  }

  lemma {:induction false} OutcomeRoutes(isPeerId: Bytes -> bool, x: Node, w: Shift, p: Packet)
    requires w.ps == [p] && w.r == p.recipient && x.now == w.clock(0)
    ensures var out := RouteOutcome(isPeerId, x, p, w.hop, w.link);
      RoutesLike(isPeerId, x, RoutedNode(isPeerId, x, w, p), p, w.hop, w.clock, w.link, out)
  {
    var y := Accepting(x, p);
    assert w.ps[..0] == [] && w.ps[0] == p;
    assert Handings(w.r, w.ps) == [Handing(w.r, p)];
    assert x.log.handed + [] == x.log.handed && x.log.sent + [] == x.log.sent;
    assert Worked(y.(now := w.clock(1)), w.r, [], w.hop, w.clock, w.link) == y.(now := w.clock(1));
  }

  /** The node when an uninterrupted Route is through. */
  function RoutedNode(isPeerId: Bytes -> bool, x: Node, w: Shift, p: Packet): Node {
    if p.id in x.dedup then x else if !isPeerId(p.recipient) then Accepting(x, p) else Outcome(Accepting(x, p), w)
  }

  lemma RoutedState(isPeerId: Bytes -> bool, s: Net, p: Packet, w: Shift)
    requires Enabled(s, Inject(w.n, p, w.j)) && w.r == p.recipient && w.ps == [p] && Timely(s, w)
    ensures var x, s' := s.nodes[w.n], Route(isPeerId, Admit(s, p), w.n, p, w.j);
      if p.id !in x.dedup && isPeerId(p.recipient)
      then Starts(s', w) && s'.jobs - {w.j} == s.jobs && s'.nodes == s.nodes[w.n := Accepting(x, p)]
      else s'.jobs == s.jobs && s'.nodes == s.nodes[w.n := if p.id in x.dedup then x else Accepting(x, p)]
  {
  }

  lemma {:induction false} RouteStarts(isPeerId: Bytes -> bool, s: Net, p: Packet, w: Shift) returns (s': Net)
    requires Located(s) && Enabled(s, Inject(w.n, p, w.j)) && w.r == p.recipient && w.ps == [p] && Timely(s, w)
    ensures Leads(isPeerId, s, s')
    ensures var x := s.nodes[w.n];
      if p.id !in x.dedup && isPeerId(p.recipient)
      then Starts(s', w) && s'.jobs - {w.j} == s.jobs && s'.nodes == s.nodes[w.n := Accepting(x, p)]
      else s'.jobs == s.jobs && s'.nodes == s.nodes[w.n := if p.id in x.dedup then x else Accepting(x, p)]
  {
    s' := Route(isPeerId, Admit(s, p), w.n, p, w.j);
    assert Leads(isPeerId, s, s') by {
      LeadsSelf(isPeerId, s);
      LeadsStep(isPeerId, s, s, Inject(w.n, p, w.j));
    }
    RoutedState(isPeerId, s, p, w);
  }

  lemma {:induction false} RouteThrough(isPeerId: Bytes -> bool, s: Net, p: Packet, w: Shift) returns (s': Net)
    requires Located(s) && Enabled(s, Inject(w.n, p, w.j)) && w.r == p.recipient && w.ps == [p] && Timely(s, w)
    ensures Leads(isPeerId, s, s') && s'.jobs == s.jobs
    ensures s'.nodes == s.nodes[w.n := RoutedNode(isPeerId, s.nodes[w.n], w, p)]
  {
    s' := RouteStarts(isPeerId, s, p, w);
    if p.id !in s.nodes[w.n].dedup && isPeerId(p.recipient) {
      s' := JobEnds(isPeerId, s, s', w);
    }
  }

  /** Route run without interruption is a run of the network, with the outcome Manager.RelayManager.Route promises. */
  lemma {:induction false} RouteIsARun(isPeerId: Bytes -> bool, s: Net, n: PeerId, p: Packet, j: nat, clock: nat -> Time,
                                       link: (PeerId, Packet) -> bool, spare: nat)
    requires Located(s) && Enabled(s, Inject(n, p, j))
    requires s.nodes[n].now == clock(0) && Steady(clock) && forall f :: f in s.flights.Keys ==> f < spare
    ensures CanRouteLike(isPeerId, s, n, p, clock, link)
  {
    var w := Shift(n, j, p.recipient, [p], NextHop(s.nodes[n], n, p.recipient, clock(1)), clock, link, spare);
    var s' := RouteThrough(isPeerId, s, p, w);
    OutcomeRoutes(isPeerId, s.nodes[n], w, p);
    assert s'.nodes - {n} == s.nodes - {n};
    assert RoutesLike(isPeerId, s.nodes[n], s'.nodes[n], p, w.hop, clock, link, RouteOutcome(isPeerId, s.nodes[n], p, w.hop, link));
  }
}
