/** The offline queue: newest packet per (recipient, sender), capped and expiring (internal/relay/queue.go). */
module Queue {
  import opened Common

  const ENTRY_TTL: Time := 7 * 24 * HOUR
  const MAX_SENDERS: nat := 500

  datatype Queued = Queued(pkt: Packet, at: Time)

  /** One recipient's packets, keyed by sender. */
  type Bucket = map<Bytes, Queued>
  type Items = map<PeerId, Bucket>

  function BucketOf(q: Items, r: PeerId): Bucket {
    if r in q then q[r] else map[]
  }

  /** A sender without a slot is turned away once the recipient has MAX_SENDERS of them. */
  predicate Refuses(b: Bucket, sender: Bytes) {
    sender !in b && |b| >= MAX_SENDERS
  }

  function Slotted(b: Bucket, p: Packet, now: Time): Bucket {
    if Refuses(b, p.sender) then b else b[p.sender := Queued(p, now)]
  }

  function Stored(q: Items, r: PeerId, p: Packet, now: Time): Items {
    if Refuses(BucketOf(q, r), p.sender) then q else q[r := Slotted(BucketOf(q, r), p, now)]
  }

  predicate Fresh(e: Queued, now: Time) {
    e.at >= now - ENTRY_TTL
  }

  function Unexpired(b: Bucket, now: Time): Bucket {
    map s | s in b && Fresh(b[s], now) :: b[s]
  }

  function Sweep(q: Items, now: Time): Items {
    map r | r in q && Unexpired(q[r], now) != map[] :: Unexpired(q[r], now)
  }

  /** `ps` holds the packets of `b`, each once, in some order. */
  ghost predicate Lists(ps: seq<Packet>, b: Bucket) {
    if ps == [] then b == map[]
    else
      var p := ps[|ps| - 1];
      p.sender in b && b[p.sender].pkt == p && Lists(ps[..|ps| - 1], b - {p.sender})
  }

  /** Slots are keyed by their packet's sender, no bucket is empty and none is over the cap. */
  ghost predicate Valid(q: Items) {
    forall r :: r in q ==> ValidBucket(q[r])
  }

  ghost predicate ValidBucket(b: Bucket) {
    && 0 < |b| <= MAX_SENDERS
    && forall s :: s in b ==> b[s].pkt.sender == s
  }

  lemma StoredBucket(q: Items, r: PeerId, p: Packet, now: Time)
    ensures BucketOf(Stored(q, r, p, now), r) == Slotted(BucketOf(q, r), p, now)
    ensures Stored(q, r, p, now) - {r} == q - {r}
  {
  }

  lemma PutValid(q: Items, r: PeerId, p: Packet, now: Time)
    requires Valid(q)
    ensures Valid(Stored(q, r, p, now))
  {
    SlottedCard(BucketOf(q, r), p, now);
  }

  lemma SlottedCard(b: Bucket, p: Packet, now: Time)
    ensures |Slotted(b, p, now)| == |b| + if p.sender in b || Refuses(b, p.sender) then 0 else 1
  {
  }

  lemma UnexpiredCard(b: Bucket, now: Time)
    ensures |Unexpired(b, now)| <= |b|
  {
    SubsetCard(Unexpired(b, now).Keys, b.Keys);
  }

  lemma SweepValid(q: Items, now: Time)
    requires Valid(q)
    ensures Valid(Sweep(q, now))
  {
    forall r | r in Sweep(q, now) ensures ValidBucket(Sweep(q, now)[r]) {
      UnexpiredCard(q[r], now);
    }
  }

  // ----- The queue against its history -----

  /** What can happen to the queue: a packet offered, a recipient's bucket taken, a sweep. */
  datatype Op = Offer(r: PeerId, pkt: Packet, now: Time) | TakeAll(r: PeerId) | SweepAt(now: Time)

  function Apply(q: Items, op: Op): Items {
    match op
    case Offer(r, p, now) => Stored(q, r, p, now)
    case TakeAll(r) => q - {r}
    case SweepAt(now) => Sweep(q, now)
  }

  function Run(ops: seq<Op>): Items {
    if ops == [] then map[] else Apply(Run(ops[..|ops| - 1]), ops[|ops| - 1])
  }

  /** The last packet ever offered for a (recipient, sender) pair, refused or not. */
  function LastOffer(ops: seq<Op>, r: PeerId, sender: Bytes): Option<Queued> {
    if ops == [] then None
    else
      var op := ops[|ops| - 1];
      if op.Offer? && op.r == r && op.pkt.sender == sender then Some(Queued(op.pkt, op.now))
      else LastOffer(ops[..|ops| - 1], r, sender)
  }

  /** However offers, takes and sweeps interleave, a slot holds the last packet offered for its pair. */
  lemma {:induction false} KeepsNewest(ops: seq<Op>)
    ensures Valid(Run(ops))
    ensures forall r, s :: r in Run(ops) && s in Run(ops)[r] ==> LastOffer(ops, r, s) == Some(Run(ops)[r][s])
  {
    if ops != [] {
      var before := ops[..|ops| - 1];
      var op := ops[|ops| - 1];
      KeepsNewest(before);
      match op
      case Offer(r, p, now) => PutValid(Run(before), r, p, now);
      case TakeAll(r) =>
      case SweepAt(now) => SweepValid(Run(before), now);
    }
  }

  /**
    A flush that puts a packet back offers it again, so a packet offered meanwhile by the same
    sender is replaced by the older one: the slot is the last offered, not the newest made.
   */
  lemma PutBackReplacesNewer(r: PeerId, older: Packet, newer: Packet, now: Time)
    requires older.sender == newer.sender
    ensures var q := Run([Offer(r, older, now), TakeAll(r), Offer(r, newer, now), Offer(r, older, now)]);
      r in q && q[r] == map[older.sender := Queued(older, now)]
  {
    var one := [Offer(r, older, now)];
    var two := one + [TakeAll(r)];
    var three := two + [Offer(r, newer, now)];
    var four := three + [Offer(r, older, now)];
    assert one[..0] == [] && two[..1] == one && three[..2] == two && four[..3] == three;
    assert Run(one).Keys == {r};
    assert Run(two) == map[];
    assert Run(three)[r] == map[newer.sender := Queued(newer, now)];
    assert four == [Offer(r, older, now), TakeAll(r), Offer(r, newer, now), Offer(r, older, now)];
  }

  // ----- When putting a packet back loses one -----

  function Offering(r: PeerId, ps: seq<Packet>, now: Time): seq<Op> {
    if ps == [] then [] else Offering(r, ps[..|ps| - 1], now) + [Offer(r, ps[|ps| - 1], now)]
  }

  /** A bucket taken by a flush, after `ps` have been put in it meanwhile. */
  function Filled(ps: seq<Packet>, now: Time): Bucket {
    if ps == [] then map[] else Slotted(Filled(ps[..|ps| - 1], now), ps[|ps| - 1], now)
  }

  function SendersOf(ps: seq<Packet>): set<Bytes> {
    set p | p in ps :: p.sender
  }

  lemma SendersMore(ps: seq<Packet>)
    requires ps != []
    ensures SendersOf(ps) == SendersOf(ps[..|ps| - 1]) + {ps[|ps| - 1].sender}
  {
    assert ps == ps[..|ps| - 1] + [ps[|ps| - 1]];
  }

  lemma {:induction false} DistinctSenders(ps: seq<Packet>)
    requires forall i, k :: 0 <= i < k < |ps| ==> ps[i].sender != ps[k].sender
    ensures |SendersOf(ps)| == |ps|
  {
    if ps != [] {
      SendersMore(ps);
      DistinctSenders(ps[..|ps| - 1]);
    }
  }

  /** One more packet, from one more sender or not. */
  lemma FilledMore(b: Bucket, p: Packet, now: Time, senders: set<Bytes>)
    requires b.Keys <= senders && |b| == (if |senders| < MAX_SENDERS then |senders| else MAX_SENDERS)
    requires |senders| <= MAX_SENDERS ==> b.Keys == senders
    ensures var b', more := Slotted(b, p, now), senders + {p.sender};
      && b'.Keys <= more && |b'| == (if |more| < MAX_SENDERS then |more| else MAX_SENDERS)
      && (|more| <= MAX_SENDERS ==> b'.Keys == more)
  {
    SlottedCard(b, p, now);
  }

  lemma {:induction false} FilledCard(ps: seq<Packet>, now: Time)
    ensures var b := Filled(ps, now);
      && b.Keys <= SendersOf(ps) && (forall k :: k in b ==> b[k].pkt in ps)
      && |b| == (if |SendersOf(ps)| < MAX_SENDERS then |SendersOf(ps)| else MAX_SENDERS)
      && (|SendersOf(ps)| <= MAX_SENDERS ==> b.Keys == SendersOf(ps))
  {
    if ps != [] {
      FilledCard(ps[..|ps| - 1], now);
      SendersMore(ps);
      FilledMore(Filled(ps[..|ps| - 1], now), ps[|ps| - 1], now, SendersOf(ps[..|ps| - 1]));
    }
  }

  lemma {:induction false} FilledRun(r: PeerId, taken: Packet, ps: seq<Packet>, now: Time)
    ensures BucketOf(Run([Offer(r, taken, now), TakeAll(r)] + Offering(r, ps, now)), r) == Filled(ps, now)
  {
    var start := [Offer(r, taken, now), TakeAll(r)];
    if ps == [] {
      assert start + [] == start && start[..1] == [Offer(r, taken, now)];
    } else {
      var ops := start + Offering(r, ps, now);
      assert ops[..|ops| - 1] == start + Offering(r, ps[..|ps| - 1], now);
      FilledRun(r, taken, ps[..|ps| - 1], now);
      StoredBucket(Run(ops[..|ops| - 1]), r, ps[|ps| - 1], now);
    }
  }

  /** A bucket `b` goes to `b'` keeping all its packets, and `p` is in it then. */
  ghost predicate Gains(b: Bucket, b': Bucket, p: Packet) {
    p.sender in b' && b'[p.sender].pkt == p && forall k :: k in b ==> k in b' && b'[k].pkt == b[k].pkt
  }

  lemma {:induction false} AfterPutBack(r: PeerId, taken: Packet, ps: seq<Packet>, now: Time)
    ensures BucketOf(Run([Offer(r, taken, now), TakeAll(r)] + Offering(r, ps, now) + [Offer(r, taken, now)]), r) ==
      Slotted(Filled(ps, now), taken, now)
  {
    var ops := [Offer(r, taken, now), TakeAll(r)] + Offering(r, ps, now);
    assert (ops + [Offer(r, taken, now)])[..|ops|] == ops;
    FilledRun(r, taken, ps, now);
    StoredBucket(Run(ops), r, taken, now);
  }

  lemma GainsIff(b: Bucket, p: Packet, now: Time)
    requires forall k :: k in b ==> b[k].pkt != p
    ensures Gains(b, Slotted(b, p, now), p) <==> p.sender !in b && |b| < MAX_SENDERS
  {
  }

  /**
    A flush takes `taken`, other packets `ps` arrive for the recipient, and the flush puts `taken` back.
    No packet is lost exactly when none of `ps` has its sender and they come from fewer than 500 senders.
   */
  lemma {:induction false} PutBackKeepsAllIff(r: PeerId, taken: Packet, ps: seq<Packet>, now: Time)
    requires taken !in ps
    ensures var ops := [Offer(r, taken, now), TakeAll(r)] + Offering(r, ps, now);
      Gains(BucketOf(Run(ops), r), BucketOf(Run(ops + [Offer(r, taken, now)]), r), taken)
      <==> taken.sender !in SendersOf(ps) && |SendersOf(ps)| < MAX_SENDERS
  {
    FilledRun(r, taken, ps, now);
    AfterPutBack(r, taken, ps, now);
    FilledCard(ps, now);
    GainsIff(Filled(ps, now), taken, now);
  }

  /** The same packet from 500 senders, told apart by their lengths. */
  function Fillers(p: Packet): seq<Packet> {
    seq(MAX_SENDERS, i requires 0 <= i => p.(sender := seq(i + 1, _ => 0)))
  }

  lemma FillersCard(p: Packet)
    ensures |SendersOf(Fillers(p))| == MAX_SENDERS && [] !in SendersOf(Fillers(p))
  {
    assert forall i :: 0 <= i < |Fillers(p)| ==> |Fillers(p)[i].sender| == i + 1;
    DistinctSenders(Fillers(p));
  }

  /** With 500 other senders in the bucket again, the packet put back is refused. */
  lemma {:induction false} PutBackRefusedAtCap(r: PeerId, taken: Packet, now: Time)
    requires taken.sender == []
    ensures taken.sender !in BucketOf(
      Run([Offer(r, taken, now), TakeAll(r)] + Offering(r, Fillers(taken), now) + [Offer(r, taken, now)]), r)
  {
    AfterPutBack(r, taken, Fillers(taken), now);
    FillersCard(taken);
    FilledCard(Fillers(taken), now);
  }

  class PacketQueue {
    var items: Items

    constructor ()
      ensures Valid(items) && items == map[]
    {
      items := map[];
    }

    method Put(r: PeerId, p: Packet, now: Time)
      modifies this
      ensures items == Stored(old(items), r, p, now)
      ensures var b := BucketOf(old(items), r);
        items == if p.sender in b || |b| < 500 then old(items)[r := b[p.sender := Queued(p, now)]] else old(items)
      ensures old(Valid(items)) ==> Valid(items)
    {
      if Valid(items) {
        PutValid(items, r, p, now);
      }
      var bucket := if r in items then items[r] else map[];
      if p.sender !in bucket && |bucket| >= MAX_SENDERS {
        return;
      }
      items := items[r := bucket[p.sender := Queued(p, now)]];
    }

    /** Empties the recipient's bucket and returns its unexpired packets in some order. */
    method Take(r: PeerId, now: Time) returns (out: seq<Packet>)
      requires Valid(items)
      modifies this
      ensures Valid(items) && items == old(items) - {r}
      ensures Lists(out, Unexpired(BucketOf(old(items), r), now))
    {
      out := [];
      if r !in items {
        return;
      }
      var bucket := items[r];
      items := items - {r};
      out := Collect(bucket, now);
    }

    method Len(r: PeerId) returns (n: nat)
      ensures n == |BucketOf(items, r)|
    {
      n := if r in items then |items[r]| else 0;
    }

    method SweepExpired(now: Time)
      requires Valid(items)
      modifies this
      ensures Valid(items) && items == Sweep(old(items), now)
      ensures forall r, s :: s in BucketOf(items, r) <==>
        s in BucketOf(old(items), r) && now - BucketOf(old(items), r)[s].at <= 7 * 24 * HOUR
      ensures forall r, s :: s in BucketOf(items, r) ==> BucketOf(items, r)[s] == BucketOf(old(items), r)[s]
    {
      SweepValid(items, now);
      ghost var q0 := items;
      var todo := items.Keys;
      assert SweptBut(q0, todo, now) == q0;
      while todo != {}
        invariant todo <= q0.Keys
        invariant items == SweptBut(q0, todo, now)
      {
        var r :| r in todo;
        var bucket := SweepBucket(items[r], now);
        SweptNext(q0, todo, r, now);
        if |bucket| == 0 {
          items := items - {r};
        } else {
          items := items[r := bucket];
        }
        todo := todo - {r};
      }
      assert items == Sweep(q0, now);
      SweepMeans(q0, now);
    }
  }

  /** A sweep leaves exactly the entries at most 7 days old. */
  lemma SweepMeans(q: Items, now: Time)
    ensures forall r, s :: s in BucketOf(Sweep(q, now), r) <==> s in BucketOf(q, r) && now - BucketOf(q, r)[s].at <= 7 * 24 * HOUR
    ensures forall r, s :: s in BucketOf(Sweep(q, now), r) ==> BucketOf(Sweep(q, now), r)[s] == BucketOf(q, r)[s]
  {
    forall r, s | s in BucketOf(q, r) && now - BucketOf(q, r)[s].at <= 7 * 24 * HOUR ensures s in BucketOf(Sweep(q, now), r) {
      assert s in Unexpired(q[r], now);
    }
  }

  /** A sweep that has still to visit the recipients in `todo`. */
  function SweptBut(q: Items, todo: set<PeerId>, now: Time): Items {
    map r | r in q && (r in todo || Unexpired(q[r], now) != map[]) :: if r in todo then q[r] else Unexpired(q[r], now)
  }

  lemma SweptNext(q: Items, todo: set<PeerId>, r: PeerId, now: Time)
    requires r in todo && todo <= q.Keys
    ensures SweptBut(q, todo - {r}, now) ==
      if Unexpired(q[r], now) == map[] then SweptBut(q, todo, now) - {r} else SweptBut(q, todo, now)[r := Unexpired(q[r], now)]
  {
  }

  method Collect(bucket: Bucket, now: Time) returns (out: seq<Packet>)
    requires forall s :: s in bucket ==> bucket[s].pkt.sender == s
    ensures Lists(out, Unexpired(bucket, now))
  {
    out := [];
    var todo := bucket.Keys;
    ghost var done: Bucket := map[];
    while todo != {}
      invariant todo <= bucket.Keys
      invariant done == map s | s in bucket && s !in todo && Fresh(bucket[s], now) :: bucket[s]
      invariant Lists(out, done)
    {
      var s :| s in todo;
      todo := todo - {s};
      if bucket[s].at >= now - ENTRY_TTL {
        ListsGrow(out, done, s, bucket[s]);
        out := out + [bucket[s].pkt];
        done := done[s := bucket[s]];
      }
    }
    assert done == Unexpired(bucket, now);
  }

  method SweepBucket(b: Bucket, now: Time) returns (bucket: Bucket)
    ensures bucket == Unexpired(b, now)
  {
    bucket := b;
    var todo := b.Keys;
    while todo != {}
      invariant todo <= bucket.Keys <= b.Keys
      invariant forall s :: s in b && s !in todo ==> (s in bucket <==> Fresh(b[s], now))
      invariant forall s :: s in bucket ==> bucket[s] == b[s]
    {
      var s :| s in todo;
      todo := todo - {s};
      if bucket[s].at < now - ENTRY_TTL {
        bucket := bucket - {s};
      }
    }
  }

  lemma ListsGrow(ps: seq<Packet>, b: Bucket, s: Bytes, e: Queued)
    requires Lists(ps, b) && s !in b && e.pkt.sender == s
    ensures Lists(ps + [e.pkt], b[s := e])
  {
    assert (ps + [e.pkt])[..|ps|] == ps;
    assert b[s := e] - {s} == b;
  }

  /** What a listing is, position by position. */
  lemma {:induction false} ListsMeans(ps: seq<Packet>, b: Bucket)
    requires Lists(ps, b)
    ensures |ps| == |b|
    ensures forall i :: 0 <= i < |ps| ==> ps[i].sender in b && b[ps[i].sender].pkt == ps[i]
    ensures forall i, k :: 0 <= i < k < |ps| ==> ps[i].sender != ps[k].sender
  {
    if ps != [] {
      var s := ps[|ps| - 1].sender;
      ListsMeans(ps[..|ps| - 1], b - {s});
      assert (b - {s}).Keys == b.Keys - {s};
      assert |(b - {s}).Keys| == |b - {s}|;
    }
  }

  /** A listing misses no slot. */
  lemma {:induction false} ListsAll(ps: seq<Packet>, b: Bucket, s: Bytes) returns (i: nat)
    requires Lists(ps, b) && s in b
    ensures i < |ps| && ps[i] == b[s].pkt
  {
    i := |ps| - 1;
    if ps[i].sender != s {
      i := ListsAll(ps[..i], b - {ps[i].sender}, s);
    }
  }

  /** What Take returns: every packet of the bucket at most 7 days old, no other, and one per sender. */
  lemma {:induction false} TakenMeans(out: seq<Packet>, b: Bucket, now: Time)
    requires Lists(out, Unexpired(b, now))
    ensures forall i, k :: 0 <= i < k < |out| ==> out[i].sender != out[k].sender
    ensures forall p: Packet :: p in out <==> p.sender in b && b[p.sender].pkt == p && now - b[p.sender].at <= 7 * 24 * HOUR
  {
    ListsMeans(out, Unexpired(b, now));
    forall p: Packet | p.sender in b && b[p.sender].pkt == p && now - b[p.sender].at <= 7 * 24 * HOUR ensures p in out {
      var i := ListsAll(out, Unexpired(b, now), p.sender);
    }
  }
}
