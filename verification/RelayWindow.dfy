/** The suppression window ends: an ID evicted after its time is accepted again (internal/relay/dedup.go). */
module RelayWindow {
  import opened Common
  import opened Relay
  import opened RelayRuns
  import opened RelayBounds
  import Dedup

  /** An eviction leaves exactly the IDs the node accepted in the last 10 s. */
  lemma {:induction false} EvictionKeepsRecent(x: Node, id: PacketId)
    requires IdTimed(x, id)
    ensures var m := Misses(x.log.accepts, id);
      id in Acted(x, EvictIds).dedup <==> exists i :: 0 <= i < |m| && x.now - m[i] <= 10 * SECOND
  {
    var m, kept := Misses(x.log.accepts, id), Acted(x, EvictIds).dedup;
    assert id in kept <==> id in x.dedup && x.now - x.dedup[id] <= 10 * SECOND;
    if id in kept {
      assert m[|m| - 1] == x.dedup[id] && x.now - m[|m| - 1] <= 10 * SECOND;
    } else {
      forall i | 0 <= i < |m| ensures x.now - m[i] > 10 * SECOND {
        assert (id in x.dedup && m[i] <= x.dedup[id]) || x.now - m[i] > Dedup.TTL;
      }
    }
  }

  predicate RoutesHere(s: Net, e: Event, n: PeerId, id: PacketId) {
    Routed(s, e).Some? && Routed(s, e).value.0 == n && Routed(s, e).value.1.id == id
  }

  /** No step of the run brings a copy of `id` to node `n`. */
  ghost predicate NoneHere(isPeerId: Bytes -> bool, s: Net, es: seq<Event>, n: PeerId, id: PacketId)
    requires Runs(isPeerId, s, es)
    decreases |es|
  {
    es != [] ==> !RoutesHere(s, es[0], n, id) && NoneHere(isPeerId, Step(isPeerId, s, es[0]), es[1..], n, id)
  }

  lemma {:induction false} StaysForgotten(isPeerId: Bytes -> bool, s: Net, es: seq<Event>, n: PeerId, id: PacketId)
    requires Runs(isPeerId, s, es) && NoneHere(isPeerId, s, es, n, id) && n in s.nodes && id !in s.nodes[n].dedup
    ensures n in Run(isPeerId, s, es).nodes && id !in Run(isPeerId, s, es).nodes[n].dedup
    decreases |es|
  {
    if es != [] {
      StepDedup(isPeerId, s, es[0], n);
      StaysForgotten(isPeerId, Step(isPeerId, s, es[0]), es[1..], n, id);
    }
  }

  /** A copy of a forgotten ID is logged as accepted and handled, not suppressed. */
  lemma {:induction false} ForgottenIsAccepted(isPeerId: Bytes -> bool, s: Net, e: Event, n: PeerId, id: PacketId)
    requires Enabled(s, e) && RoutesHere(s, e, n, id) && n in s.nodes && id !in s.nodes[n].dedup
    ensures var s', p := Step(isPeerId, s, e), Routed(s, e).value.1;
      && n in s'.nodes && Misses(s'.nodes[n].log.accepts, id) == Misses(s.nodes[n].log.accepts, id) + [s.nodes[n].now]
      && p.copy < |s'.place| && s'.place[p.copy] == if isPeerId(p.recipient) then Held(n, e.job) else Rejected(n)
  {
    StepMisses(isPeerId, s, e, n, id);
    match e
    case Inject(m, p, j) => RoutePlace(isPeerId, Admit(s, p), m, p, j);
    case Receive(f, j) => RoutePlace(isPeerId, Land(s, f), s.flights[f].dst, s.flights[f].pkt, j);
  }

  /**
    In every run: a node evicts when it accepted `id` only more than 10 s ago, and then the next copy of
    `id` to come, from an app or a stream, is accepted and handled as if it were the first.
   */
  lemma {:induction false} AcceptedAgain(isPeerId: Bytes -> bool, s0: Net, es0: seq<Event>, s: Net, n: PeerId, id: PacketId,
                                         es: seq<Event>, s': Net, e: Event)
    requires Init(s0) && Runs(isPeerId, s0, es0) && s == Run(isPeerId, s0, es0) && n in s.nodes && Enabled(s, Local(n, EvictIds))
    requires var m := Misses(s.nodes[n].log.accepts, id); forall i :: 0 <= i < |m| ==> s.nodes[n].now - m[i] > 10 * SECOND
    requires var s1 := Step(isPeerId, s, Local(n, EvictIds));
      Runs(isPeerId, s1, es) && NoneHere(isPeerId, s1, es, n, id) && s' == Run(isPeerId, s1, es)
    requires Enabled(s', e) && RoutesHere(s', e, n, id)
    ensures n in s'.nodes
    ensures var s'', p := Step(isPeerId, s', e), Routed(s', e).value.1;
      && n in s''.nodes && Misses(s''.nodes[n].log.accepts, id) == Misses(s'.nodes[n].log.accepts, id) + [s'.nodes[n].now]
      && p.copy < |s''.place| && s''.place[p.copy] == if isPeerId(p.recipient) then Held(n, e.job) else Rejected(n)
  {
    InitBounded(s0);
    RunBounded(isPeerId, s0, es0);
    assert IdTimed(s.nodes[n], id);
    EvictionKeepsRecent(s.nodes[n], id);
    StaysForgotten(isPeerId, Step(isPeerId, s, Local(n, EvictIds)), es, n, id);
    ForgottenIsAccepted(isPeerId, s', e, n, id);
  }
}
