/** One relay node's packet handling, run without interleaving (internal/relay/manager.go). */
module Manager {
  import opened Common
  import opened Queue
  import Dedup
  import Router

  datatype Outcome = Duplicate | InvalidRecipient | Delivered | Forwarded(via: PeerId) | Kept

  /** Whether a flush must put `p` back: nowhere to send it, or the stream to the next hop fails. */
  predicate Stays(p: Packet, via: Option<PeerId>, link: (PeerId, Packet) -> bool) {
    via.None? || !link(via.value, p)
  }

  function Staying(b: Bucket, via: Option<PeerId>, link: (PeerId, Packet) -> bool): set<Bytes> {
    set s | s in b && Stays(b[s].pkt, via, link)
  }

  function Going(b: Bucket, via: Option<PeerId>, link: (PeerId, Packet) -> bool): Bucket {
    map s | s in b && !Stays(b[s].pkt, via, link) :: b[s]
  }

  /** `after` holds exactly the packets of `taken` that could not go, and `sent` lists the others. */
  ghost predicate Split(taken: Bucket, after: Bucket, sent: seq<Packet>, via: Option<PeerId>, link: (PeerId, Packet) -> bool) {
    && after.Keys == Staying(taken, via, link)
    && (forall s :: s in after ==> after[s].pkt == taken[s].pkt)
    && Lists(sent, Going(taken, via, link))
  }

  /** An emptied bucket, and the packets sent, after trying to forward each of `ps` in turn. */
  function Forwarding(ps: seq<Packet>, via: Option<PeerId>, clock: nat -> Time, link: (PeerId, Packet) -> bool)
    : (Bucket, seq<Packet>)
  {
    if ps == [] then (map[], [])
    else
      var n := |ps| - 1;
      var (b, sent) := Forwarding(ps[..n], via, clock, link);
      if Stays(ps[n], via, link) then (Slotted(b, ps[n], clock(2 + n)), sent) else (b, sent + [ps[n]])
  }

  /** Forwarding a listed bucket puts back the packets that stay, refusing none, and sends the others. */
  lemma {:induction false} ForwardingLosesNothing(ps: seq<Packet>, b: Bucket, via: Option<PeerId>, clock: nat -> Time,
                               link: (PeerId, Packet) -> bool)
    requires Lists(ps, b) && |ps| <= MAX_SENDERS
    ensures var (b', sent) := Forwarding(ps, via, clock, link); Split(b, b', sent, via, link)
  {
    PutsBackStaying(ps, b, via, clock, link);
    SendsGoing(ps, b, via, clock, link);
  }

  lemma {:induction false} PutsBackStaying(ps: seq<Packet>, b: Bucket, via: Option<PeerId>, clock: nat -> Time,
                                           link: (PeerId, Packet) -> bool)
    requires Lists(ps, b) && |ps| <= MAX_SENDERS
    ensures var b' := Forwarding(ps, via, clock, link).0;
      |b'| <= |ps| && b'.Keys == Staying(b, via, link) && forall s :: s in b' ==> b'[s].pkt == b[s].pkt
  {
    if ps != [] {
      var n := |ps| - 1;
      PutsBackStaying(ps[..n], b - {ps[n].sender}, via, clock, link);
      SplitStaying(b, ps[n].sender, via, link);
      if Stays(ps[n], via, link) {
        PutsBackOne(b, Forwarding(ps[..n], via, clock, link).0, ps[n], clock(2 + n), Staying(b - {ps[n].sender}, via, link));
      }
    }
  }

  /** One packet more that stays finds its slot free. */
  lemma PutsBackOne(b: Bucket, b': Bucket, p: Packet, now: Time, staying: set<Bytes>)
    requires p.sender in b && b[p.sender].pkt == p && |b'| < MAX_SENDERS
    requires b'.Keys == staying && p.sender !in staying && staying <= b.Keys && forall s :: s in b' ==> b'[s].pkt == b[s].pkt
    ensures var b'' := Slotted(b', p, now);
      |b''| <= |b'| + 1 && b''.Keys == staying + {p.sender} && forall s :: s in b'' ==> b''[s].pkt == b[s].pkt
  {
    SlottedCard(b', p, now);
  }

  lemma {:induction false} SendsGoing(ps: seq<Packet>, b: Bucket, via: Option<PeerId>, clock: nat -> Time,
                                      link: (PeerId, Packet) -> bool)
    requires Lists(ps, b)
    ensures Lists(Forwarding(ps, via, clock, link).1, Going(b, via, link))
  {
    if ps != [] {
      var n := |ps| - 1;
      var p := ps[n];
      SendsGoing(ps[..n], b - {p.sender}, via, clock, link);
      SplitStaying(b, p.sender, via, link);
      if !Stays(p, via, link) {
        ListsGrow(Forwarding(ps[..n], via, clock, link).1, Going(b - {p.sender}, via, link), p.sender, b[p.sender]);
      }
    }
  }

  lemma SplitStaying(b: Bucket, s: Bytes, via: Option<PeerId>, link: (PeerId, Packet) -> bool)
    requires s in b
    ensures Staying(b, via, link) == Staying(b - {s}, via, link) + if Stays(b[s].pkt, via, link) then {s} else {}
    ensures Going(b, via, link) ==
      if Stays(b[s].pkt, via, link) then Going(b - {s}, via, link) else Going(b - {s}, via, link)[s := b[s]]
  {
  }

  /**
    What a flush does with the bucket it took, entry by entry: what the stream to the next hop carries is
    sent, each packet once, and the rest is back in the bucket, which holds nothing else.
   */
  ghost predicate Sorted(taken: Bucket, after: Bucket, sent: seq<Packet>, hop: Option<PeerId>, link: (PeerId, Packet) -> bool) {
    && (forall s :: s in taken ==>
      if hop.Some? && link(hop.value, taken[s].pkt) then taken[s].pkt in sent && s !in after
      else s in after && after[s].pkt == taken[s].pkt && taken[s].pkt !in sent)
    && after.Keys <= taken.Keys && |sent| + |after| == |taken|
    && (forall p :: p in sent ==> p.sender in taken && taken[p.sender].pkt == p)
  }

  lemma {:induction false} SentAre(sent: seq<Packet>, going: Bucket)
    requires Lists(sent, going)
    ensures |sent| == |going|
    ensures forall p: Packet :: p in sent <==> p.sender in going && going[p.sender].pkt == p
  {
    ListsMeans(sent, going);
    forall p: Packet | p.sender in going && going[p.sender].pkt == p ensures p in sent {
      var i := ListsAll(sent, going, p.sender);
    }
  }

  lemma SplitCard(taken: Bucket, after: Bucket, going: Bucket)
    requires taken.Keys == after.Keys + going.Keys && after.Keys !! going.Keys
    ensures |after| + |going| == |taken|
  {
    assert |going.Keys| == |going| && |after.Keys| == |after| && |taken.Keys| == |taken|;
  }

  lemma {:induction false} SplitSorted(taken: Bucket, after: Bucket, sent: seq<Packet>, hop: Option<PeerId>, link: (PeerId, Packet) -> bool)
    requires Split(taken, after, sent, hop, link) && forall s :: s in taken ==> taken[s].pkt.sender == s
    ensures Sorted(taken, after, sent, hop, link)
  {
    var going := Going(taken, hop, link);
    SentAre(sent, going);
    StayOrGo(taken, hop, link);
    SplitCard(taken, after, going);
  }

  lemma StayOrGo(b: Bucket, hop: Option<PeerId>, link: (PeerId, Packet) -> bool)
    ensures b.Keys == Staying(b, hop, link) + Going(b, hop, link).Keys && Staying(b, hop, link) !! Going(b, hop, link).Keys
    ensures forall s :: s in b ==> (s in Going(b, hop, link) <==> hop.Some? && link(hop.value, b[s].pkt))
  {
  }

  /** All of this for a listed bucket. */
  lemma {:induction false} FlushSorts(ps: seq<Packet>, b: Bucket, hop: Option<PeerId>, clock: nat -> Time, link: (PeerId, Packet) -> bool)
    requires Lists(ps, b) && |b| <= MAX_SENDERS && forall s :: s in b ==> b[s].pkt.sender == s
    ensures var (b', sent) := Forwarding(ps, hop, clock, link); Sorted(b, b', sent, hop, link)
  {
    assert |ps| == |b| by {
      ListsMeans(ps, b);
    }
    ForwardingLosesNothing(ps, b, hop, clock, link);
    var (b', sent) := Forwarding(ps, hop, clock, link);
    SplitSorted(b, b', sent, hop, link);
  }

  /** The same for what is taken from a valid queue. */
  lemma {:induction false} TakenSplits(ps: seq<Packet>, q: Items, r: PeerId, now: Time, hop: Option<PeerId>, clock: nat -> Time,
                                       link: (PeerId, Packet) -> bool)
    requires Valid(q) && Lists(ps, Unexpired(BucketOf(q, r), now))
    ensures var (b, sent) := Forwarding(ps, hop, clock, link); Split(Unexpired(BucketOf(q, r), now), b, sent, hop, link)
  {
    assert |ps| <= MAX_SENDERS by {
      ListsMeans(ps, Unexpired(BucketOf(q, r), now));
      UnexpiredCard(BucketOf(q, r), now);
    }
    ForwardingLosesNothing(ps, Unexpired(BucketOf(q, r), now), hop, clock, link);
  }

  class RelayManager {
    const self: PeerId
    /** Whether bytes parse as a peer ID. */
    const isPeerId: Bytes -> bool
    const dedup: Dedup.DedupCache
    const router: Router.RoutingTable
    const queue: PacketQueue
    var localApps: set<PeerId>

    constructor (self: PeerId, isPeerId: Bytes -> bool)
      ensures this.self == self && this.isPeerId == isPeerId && localApps == {}
      ensures fresh(dedup) && fresh(router) && fresh(queue)
      ensures dedup.m == map[] && dedup.ttl == Dedup.TTL && router.table == map[] && queue.items == map[]
    {
      this.self := self;
      this.isPeerId := isPeerId;
      dedup := new Dedup.DedupCache(Dedup.TTL);
      router := new Router.RoutingTable();
      queue := new PacketQueue();
      localApps := {};
    }

    /** The node to forward to, if there is a live route that does not lead back here. */
    function NextHop(recipient: PeerId, now: Time): (via: Option<PeerId>)
      reads router
      ensures via.Some? ==> via.value != self && Router.Lookup(router.table, recipient, now) == via
      ensures via.None? ==> Router.Lookup(router.table, recipient, now) == None || Router.Lookup(router.table, recipient, now) == Some(self)
    {
      var via := Router.Lookup(router.table, recipient, now);
      if via == Some(self) then None else via
    }

    /**
      Attempts delivery of everything held for `recipient`. `clock(0)` is when the bucket is taken,
      `clock(1)` when the route is looked up and `clock(2 + i)` when the i-th packet may be put back;
      `link(via, p)` says whether the stream carrying `p` to `via` succeeds.

      Nothing is lost: the bucket afterwards holds exactly the unexpired packets that could not go.
     */
    method FlushQueued(recipient: PeerId, clock: nat -> Time, link: (PeerId, Packet) -> bool)
      returns (handed: seq<Packet>, sent: seq<Packet>)
      requires Valid(queue.items)
      modifies queue
      ensures Valid(queue.items)
      ensures queue.items - {recipient} == old(queue.items) - {recipient}
      ensures recipient in localApps ==>
        Lists(handed, Unexpired(BucketOf(old(queue.items), recipient), clock(0))) && sent == [] && recipient !in queue.items
      ensures recipient !in localApps ==>
        && handed == []
        && Split(Unexpired(BucketOf(old(queue.items), recipient), clock(0)), BucketOf(queue.items, recipient), sent,
                 NextHop(recipient, clock(1)), link)
    {
      var pending := queue.Take(recipient, clock(0));
      TakenSplits(pending, old(queue.items), recipient, clock(0), NextHop(recipient, clock(1)), clock, link);
      handed, sent := [], [];
      if |pending| == 0 {
        return;
      }
      if recipient in localApps {
        handed := pending;
      } else {
        var via := router.Find(recipient, clock(1));
        sent := ForwardAll(recipient, pending, if via == Some(self) then None else via, clock, link);
      }
    }

    /** Sends each packet to the next hop, or puts it back when that cannot be done. */
    method ForwardAll(recipient: PeerId, pending: seq<Packet>, hop: Option<PeerId>, clock: nat -> Time,
                      link: (PeerId, Packet) -> bool)
      returns (sent: seq<Packet>)
      requires Valid(queue.items) && recipient !in queue.items
      modifies queue
      ensures Valid(queue.items) && queue.items - {recipient} == old(queue.items)
      ensures (BucketOf(queue.items, recipient), sent) == Forwarding(pending, hop, clock, link)
    {
      sent := [];
      for i := 0 to |pending|
        invariant Valid(queue.items) && queue.items - {recipient} == old(queue.items)
        invariant (BucketOf(queue.items, recipient), sent) == Forwarding(pending[..i], hop, clock, link)
      {
        assert pending[..i + 1][..i] == pending[..i];
        StoredBucket(queue.items, recipient, pending[i], clock(2 + i));
        if hop.None? || !link(hop.value, pending[i]) {
          queue.Put(recipient, pending[i], clock(2 + i));
        } else {
          sent := sent + [pending[i]];
        }
      }
      assert pending[..|pending|] == pending;
    }

    /** Handles a packet from an app or a stream: suppressed, rejected, delivered, forwarded or kept. */
    method Route(p: Packet, clock: nat -> Time, link: (PeerId, Packet) -> bool) returns (out: Outcome)
      modifies dedup, queue
      ensures out.Duplicate? <==> p.id in old(dedup.m)
      ensures dedup.m == if out.Duplicate? then old(dedup.m) else old(dedup.m)[p.id := clock(0)]
      ensures !out.Duplicate? ==> (out.InvalidRecipient? <==> !isPeerId(p.recipient))
      ensures !out.Duplicate? && !out.InvalidRecipient? ==> (out.Delivered? <==> p.recipient in localApps)
      ensures out.Forwarded? ==>
        NextHop(p.recipient, clock(1)) == Some(out.via) && link(out.via, p) && out.via != self
      ensures !out.Duplicate? && !out.InvalidRecipient? && !out.Delivered? ==>
        var route := Router.Lookup(router.table, p.recipient, clock(1));
        out == if route.Some? && route.value != self && link(route.value, p) then Forwarded(route.value) else Kept
      ensures out.Kept? ==> Stays(p, NextHop(p.recipient, clock(1)), link)
      ensures old(Valid(queue.items)) ==> Valid(queue.items)
      ensures queue.items == if out.Kept? then Stored(old(queue.items), p.recipient, p, clock(2)) else old(queue.items)
    {
      var seen := dedup.SeenOrAdd(p.id, clock(0));
      if seen {
        return Duplicate;
      }
      if !isPeerId(p.recipient) {
        return InvalidRecipient;
      }
      if p.recipient in localApps {
        return Delivered;
      }
      var via := router.Find(p.recipient, clock(1));
      if via.None? || via.value == self {
        queue.Put(p.recipient, p, clock(2));
        return Kept;
      }
      if !link(via.value, p) {
        queue.Put(p.recipient, p, clock(2));
        return Kept;
      }
      return Forwarded(via.value);
    }
  }
}
