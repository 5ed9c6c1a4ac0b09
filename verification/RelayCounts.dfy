/** Counting the copies of a run: what sits in queues, jobs, streams and apps, and what was dropped, adds up to what was injected. */
module RelayCounts {
  import opened Common
  import Queue
  import opened Relay
  import opened RelayConservation
  import opened RelayRuns

  datatype Fate = ToApp | Streaming | LostOnStream | Queueing | InProgress | Duplicate | Replaced | AtCap | TimedOut | BadRecipient

  function FateOf(place: Place): Option<Fate> {
    match place
    case Transit => None
    case Waiting(_, _) => Some(Queueing)
    case Held(_, _) => Some(InProgress)
    case InFlight(_) => Some(Streaming)
    case Delivered(_) => Some(ToApp)
    case Lost => Some(LostOnStream)
    case Deduped(_) => Some(Duplicate)
    case Superseded(_) => Some(Replaced)
    case Refused(_) => Some(AtCap)
    case Expired(_) => Some(TimedOut)
    case Rejected(_) => Some(BadRecipient)
  }

  function Tally(place: seq<Place>, fate: Fate): nat {
    if place == [] then 0
    else Tally(place[..|place| - 1], fate) + if FateOf(place[|place| - 1]) == Some(fate) then 1 else 0
  }

  function Total(place: seq<Place>): nat {
    Tally(place, ToApp) + Tally(place, Streaming) + Tally(place, LostOnStream) + Tally(place, Queueing)
    + Tally(place, InProgress) + Tally(place, Duplicate) + Tally(place, Replaced) + Tally(place, AtCap)
    + Tally(place, TimedOut) + Tally(place, BadRecipient)
  }

  lemma {:induction false} TotalIsLength(place: seq<Place>)
    requires forall t :: 0 <= t < |place| ==> !place[t].Transit?
    ensures Total(place) == |place|
  {
    if place != [] {
      TotalIsLength(place[..|place| - 1]);
    }
  }

  lemma {:induction false} TallyIsCard(place: seq<Place>, fate: Fate, ts: set<int>)
    requires forall t :: t in ts <==> 0 <= t < |place| && FateOf(place[t]) == Some(fate)
    ensures Tally(place, fate) == |ts|
  {
    if place == [] {
      forall t ensures t !in ts {}
      assert ts == {};
    } else {
      TallyIsCard(place[..|place| - 1], fate, ts - {|place| - 1});
    }
  }

  /** The copies placed in a bucket are as many as the bucket's entries (what Queue.Len reports). */
  lemma BucketCount(s: Net, n: PeerId, r: PeerId, ts: set<int>)
    requires QueuesOk(s) && n in s.nodes
    requires forall t :: t in ts <==> 0 <= t < |s.place| && s.place[t] == Waiting(n, r)
    ensures |ts| == |Queue.BucketOf(s.nodes[n].queue, r)|
  {
    var b := Queue.BucketOf(s.nodes[n].queue, r);
    forall k | k in b ensures b[k].pkt.copy in ts && s.injected[b[k].pkt.copy].sender == k {
      assert Slot(s, n, r, k) == Some(b[k].pkt);
    }
    forall t | t in ts ensures s.injected[t].sender in b && b[s.injected[t].sender].pkt.copy == t {
      assert Slot(s, n, r, s.injected[t].sender) == Some(s.injected[t]);
    }
    var copies: map<Bytes, int> := map k | k in b :: b[k].pkt.copy;
    forall t | t in ts ensures exists k :: k in b.Keys && copies[k] == t {
      assert copies[s.injected[t].sender] == t;
    }
    assert ts == set k | k in b.Keys :: copies[k];
    ImageCard(b.Keys, copies, ts);
  }

  lemma FlightCount(s: Net)
    requires FlightsOk(s)
    ensures Tally(s.place, Streaming) == |s.flights|
  {
    var ts := set t | 0 <= t < |s.place| && s.place[t].InFlight?;
    TallyIsCard(s.place, Streaming, ts);
    var copies: map<nat, int> := map f | f in s.flights :: s.flights[f].pkt.copy;
    assert ts == set f | f in s.flights.Keys :: copies[f];
    ImageCard(s.flights.Keys, copies, ts);
  }


  // ----- Sums over maps -----

  ghost function Sum<K>(m: map<K, nat>): nat {
    if m == map[] then 0 else var k :| k in m; m[k] + Sum(m - {k})
  }

  /** The order in which a sum is taken does not matter. */
  lemma {:induction false} SumTake<K>(m: map<K, nat>, k: K)
    requires k in m
    ensures Sum(m) == m[k] + Sum(m - {k})
    decreases |m|
  {
    var f :| f in m && Sum(m) == m[f] + Sum(m - {f});
    if f != k {
      SumTake(m - {f}, k);
      SumTake(m - {k}, f);
      assert m - {f} - {k} == m - {k} - {f};
    }
  }

  ghost function Fibre<T, K>(all: set<T>, key: map<T, K>, k: K): set<T>
    requires all <= key.Keys
  {
    set x | x in all && key[x] == k
  }

  /** A set sorted by a key has as many elements as its fibres together. */
  lemma {:induction false} FibresCard<T, K>(all: set<T>, key: map<T, K>, sizes: map<K, nat>)
    requires all <= key.Keys && forall x :: x in all ==> key[x] in sizes
    requires forall k :: k in sizes ==> |Fibre(all, key, k)| == sizes[k]
    ensures |all| == Sum(sizes)
    decreases |sizes|
  {
    if sizes == map[] {
      assert all == {};
    } else {
      var k :| k in sizes;
      var rest := all - Fibre(all, key, k);
      SumTake(sizes, k);
      forall l | l in sizes - {k} ensures Fibre(rest, key, l) == Fibre(all, key, l) {}
      FibresCard(rest, key, sizes - {k});
    }
  }

  // ----- The live counts -----

  /** What each recipient's bucket holds at each node. */
  ghost function BucketSizes(s: Net): map<(PeerId, PeerId), nat> {
    map n, r | n in s.nodes && r in s.nodes[n].queue :: (n, r) := |s.nodes[n].queue[r]|
  }

  ghost function PendingSizes(s: Net): map<nat, nat> {
    map j | j in s.jobs :: |s.jobs[j].pending|
  }

  ghost function HandedSizes(s: Net): map<PeerId, nat> {
    map n | n in s.nodes :: |s.nodes[n].log.handed|
  }

  /** Distinct positions of a sequence of copies are as many as its length. */
  lemma {:induction false} CopiesCard(copies: seq<int>, ts: set<int>)
    requires forall i, k :: 0 <= i < k < |copies| ==> copies[i] != copies[k]
    requires forall t :: t in ts <==> t in copies
    ensures |ts| == |copies|
  {
    if copies == [] {
      forall t ensures t !in ts {}
      assert ts == {};
    } else {
      var last := copies[|copies| - 1];
      assert copies == copies[..|copies| - 1] + [last];
      CopiesCard(copies[..|copies| - 1], ts - {last});
    }
  }

  /** Copies of one fate, sorted by a key, are as many as the sizes say. */
  lemma {:induction false} CountByKey<K>(place: seq<Place>, fate: Fate, key: map<int, K>, sizes: map<K, nat>)
    requires forall t :: t in key <==> 0 <= t < |place| && FateOf(place[t]) == Some(fate)
    requires forall t :: t in key ==> key[t] in sizes
    requires forall k :: k in sizes ==> |Fibre(key.Keys, key, k)| == sizes[k]
    ensures Tally(place, fate) == Sum(sizes)
  {
    TallyIsCard(place, fate, key.Keys);
    forall t | t in key.Keys ensures key[t] in sizes {
      assert t in key;
    }
    FibresCard(key.Keys, key, sizes);
  }

  ghost function WaitingAt(s: Net): map<int, (PeerId, PeerId)> {
    map t | 0 <= t < |s.place| && s.place[t].Waiting? :: (s.place[t].node, s.place[t].recipient)
  }

  lemma WaitsInBucket(s: Net, t: nat)
    requires QueuesOk(s) && t in WaitingAt(s)
    ensures WaitingAt(s)[t] in BucketSizes(s)
  {
    assert Slot(s, s.place[t].node, s.place[t].recipient, s.injected[t].sender).Some?;
  }

  lemma WaitingFibre(s: Net, k: (PeerId, PeerId))
    requires QueuesOk(s) && k in BucketSizes(s)
    ensures |Fibre(WaitingAt(s).Keys, WaitingAt(s), k)| == BucketSizes(s)[k]
  {
    var key := WaitingAt(s);
    var ts := Fibre(key.Keys, key, k);
    forall t ensures t in ts <==> 0 <= t < |s.place| && s.place[t] == Waiting(k.0, k.1) {
      assert t in ts <==> t in key && key[t] == k;
    }
    BucketCount(s, k.0, k.1, ts);
  }

  /** The waiting copies are as many as the queues of all nodes hold. */
  lemma {:induction false} QueueCount(s: Net)
    requires Located(s)
    ensures Tally(s.place, Queueing) == Sum(BucketSizes(s))
  {
    var key := WaitingAt(s);
    forall t | t in key ensures key[t] in BucketSizes(s) {
      WaitsInBucket(s, t);
    }
    forall k | k in BucketSizes(s) ensures |Fibre(key.Keys, key, k)| == BucketSizes(s)[k] {
      WaitingFibre(s, k);
    }
    forall t ensures t in key <==> 0 <= t < |s.place| && FateOf(s.place[t]) == Some(Queueing) {}
    CountByKey(s.place, Queueing, key, BucketSizes(s));
  }

  ghost function HeldBy(s: Net): map<int, nat> {
    map t | 0 <= t < |s.place| && s.place[t].Held? :: s.place[t].job
  }

  lemma JobCount(s: Net, j: nat, ts: set<int>)
    requires JobsOk(s) && j in s.jobs
    requires forall t :: t in ts <==> 0 <= t < |s.place| && s.place[t].Held? && s.place[t].job == j
    ensures |ts| == |s.jobs[j].pending|
  {
    var ps := s.jobs[j].pending;
    assert JobOk(s, j, s.jobs[j]);
    var copies := seq(|ps|, i requires 0 <= i < |ps| => ps[i].copy);
    forall t | t in ts ensures t in copies {
      var i := HasIndex(ps, s.injected[t]);
      assert copies[i] == t;
    }
    CopiesCard(copies, ts);
  }

  /** The copies held by jobs are as many as the jobs have pending. */
  lemma {:induction false} PendingCount(s: Net)
    requires Located(s)
    ensures Tally(s.place, InProgress) == Sum(PendingSizes(s))
  {
    var key := HeldBy(s);
    forall j | j in s.jobs ensures |Fibre(key.Keys, key, j)| == |s.jobs[j].pending| {
      JobCount(s, j, Fibre(key.Keys, key, j));
    }
    CountByKey(s.place, InProgress, key, PendingSizes(s));
  }

  ghost function DeliveredAt(s: Net): map<int, PeerId> {
    map t | 0 <= t < |s.place| && s.place[t].Delivered? :: s.place[t].node
  }

  lemma DeliveredByNode(s: Net, t: nat)
    requires HandedOk(s) && t in DeliveredAt(s)
    ensures DeliveredAt(s)[t] in s.nodes
  {
    assert WasHanded(HandedBy(s, s.place[t].node), s.injected[t]);
  }

  lemma AppCount(s: Net, n: PeerId, ts: set<int>)
    requires HandedOk(s) && n in s.nodes
    requires forall t :: t in ts <==> 0 <= t < |s.place| && s.place[t] == Delivered(n)
    ensures |ts| == |s.nodes[n].log.handed|
  {
    var hs := HandedBy(s, n);
    var copies := seq(|hs|, i requires 0 <= i < |hs| => hs[i].pkt.copy);
    forall i | 0 <= i < |hs| ensures copies[i] in ts && s.injected[copies[i]] == hs[i].pkt {
      assert HandedBy(s, n)[i] == hs[i];
    }
    forall t | t in ts ensures t in copies {
      var i := HandedIndex(hs, s.injected[t]);
      assert copies[i] == t;
    }
    CopiesCard(copies, ts);
  }

  /** The delivered copies are as many as the nodes handed over. */
  lemma {:induction false} HandedTotal(s: Net)
    requires Located(s)
    ensures Tally(s.place, ToApp) == Sum(HandedSizes(s))
  {
    var key := DeliveredAt(s);
    forall t | t in key ensures key[t] in s.nodes {
      DeliveredByNode(s, t);
    }
    forall n | n in s.nodes ensures |Fibre(key.Keys, key, n)| == |s.nodes[n].log.handed| {
      AppCount(s, n, Fibre(key.Keys, key, n));
    }
    CountByKey(s.place, ToApp, key, HandedSizes(s));
  }

  /** The copies dropped for each of the six reasons. */
  function Drops(place: seq<Place>): nat {
    Tally(place, LostOnStream) + Tally(place, Duplicate) + Tally(place, Replaced) + Tally(place, AtCap) + Tally(place, TimedOut)
    + Tally(place, BadRecipient)
  }

  /**
    In every reachable state, what apps were handed, what the queues hold, what jobs have pending and
    what is on streams, counted where they are, make up the copies injected together with those dropped.
   */
  lemma {:induction false} CountsAddUp(isPeerId: Bytes -> bool, s: Net, es: seq<Event>)
    requires Init(s) && Runs(isPeerId, s, es)
    ensures var s' := Run(isPeerId, s, es);
      Sum(HandedSizes(s')) + Sum(BucketSizes(s')) + Sum(PendingSizes(s')) + |s'.flights| + Drops(s'.place) == |Injections(es)|
  {
    var s' := Run(isPeerId, s, es);
    RunLocated(isPeerId, s, es);
    RunInjects(isPeerId, s, es);
    TotalIsLength(s'.place);
    HandedTotal(s');
    QueueCount(s');
    PendingCount(s');
    FlightCount(s');
  }
}
