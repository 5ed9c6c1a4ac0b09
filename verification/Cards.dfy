/** The newest-card flood (internal/network/networks.go). */
module Cards {
  import opened Common

  /** `body` stands for the fields the flood does not look at. */
  datatype Card = Card(id: string, createdAt: int, body: Bytes)
  type Cache = map<string, Card>

  predicate Newer(store: Cache, card: Card) {
    card.id !in store || card.createdAt > store[card.id].createdAt
  }

  predicate Older(store: Cache, card: Card) {
    card.id in store && card.createdAt < store[card.id].createdAt
  }

  class Discovery {
    var store: Cache
    var published: seq<Card>
    /** Whether a card's signature checks. */
    const verifies: Card -> bool

    constructor (verifies: Card -> bool)
      ensures store == map[] && published == [] && this.verifies == verifies
    {
      store, published := map[], [];
      this.verifies := verifies;
    }

    method Announce(card: Card) returns (ok: bool)
      modifies this
      ensures ok <==> verifies(card)
      ensures store == if ok then old(store)[card.id := card] else old(store)
      ensures published == old(published) + if ok then [card] else []
    {
      if !verifies(card) {
        return false;
      }
      store := store[card.id := card];
      published := published + [card];
      return true;
    }

    /** One turn of the read loop. */
    method Receive(card: Card, fromSelf: bool)
      modifies this
      ensures var taken := !fromSelf && verifies(card) && Newer(old(store), card);
        && store == (if taken then old(store)[card.id := card] else old(store))
        && published == old(published) + if taken then [card] else []
    {
      if fromSelf || !verifies(card) {
        return;
      }
      if card.id in store && card.createdAt <= store[card.id].createdAt {
        return;
      }
      store := store[card.id := card];
      published := published + [card];
    }
  }

  // ----- The mesh -----

  datatype Msg = Msg(dst: nat, card: Card)

  /** Nodes are numbered; `announced` records every card an operator announced. */
  datatype Mesh = Mesh(stores: seq<Cache>, wire: multiset<Msg>, announced: set<Card>)

  /** A publish goes to every node but its sender. */
  function Broadcast(n: nat, src: nat, card: Card): (ms: seq<Msg>)
    requires src < n
    ensures |ms| == n - 1
  {
    seq(n - 1, i requires 0 <= i < n - 1 => Msg(if i < src then i else i + 1, card))
  }

  lemma BroadcastReaches(n: nat, src: nat, card: Card)
    requires src < n
    ensures forall dst: nat :: dst < n && dst != src ==> Msg(dst, card) in multiset(Broadcast(n, src, card))
    ensures forall m :: m in multiset(Broadcast(n, src, card)) ==> m.dst < n && m.dst != src && m.card == card
  {
    var ms := Broadcast(n, src, card);
    forall dst: nat | dst < n && dst != src ensures Msg(dst, card) in multiset(ms) {
      assert ms[if dst < src then dst else dst - 1] == Msg(dst, card);
    }
  }

  function Announce(s: Mesh, n: nat, card: Card): Mesh
    requires n < |s.stores|
  {
    Mesh(s.stores[n := s.stores[n][card.id := card]], s.wire + multiset(Broadcast(|s.stores|, n, card)), s.announced + {card})
  }

  function Deliver(verifies: Card -> bool, s: Mesh, m: Msg): Mesh
    requires m in s.wire && m.dst < |s.stores|
  {
    var rest := s.wire - multiset{m};
    if verifies(m.card) && Newer(s.stores[m.dst], m.card)
    then s.(stores := s.stores[m.dst := s.stores[m.dst][m.card.id := m.card]],
            wire := rest + multiset(Broadcast(|s.stores|, m.dst, m.card)))
    else s.(wire := rest)
  }

  /** Everything in flight or stored is verified and was announced. */
  ghost predicate Sound(verifies: Card -> bool, s: Mesh) {
    && (forall m :: m in s.wire ==> m.dst < |s.stores| && m.card in s.announced && verifies(m.card))
    && (forall n, id :: 0 <= n < |s.stores| && id in s.stores[n] ==> s.stores[n][id].id == id && s.stores[n][id] in s.announced)
  }

  /** Whatever is on the wire, forged or not, a delivery puts only verified cards in a store, under their own IDs, and never an older one over a newer. */
  lemma {:induction false} OnlyVerifiedNewer(verifies: Card -> bool, s: Mesh, m: Msg, n: nat, id: string)
    requires m in s.wire && m.dst < |s.stores| && n < |s.stores|
    ensures var s' := Deliver(verifies, s, m);
      && |s'.stores| == |s.stores| && (id in s.stores[n] ==> id in s'.stores[n])
      && (id in s'.stores[n] && !(id in s.stores[n] && s'.stores[n][id] == s.stores[n][id]) ==>
        && n == m.dst && s'.stores[n][id] == m.card && m.card.id == id && verifies(m.card)
        && (id in s.stores[n] ==> m.card.createdAt > s.stores[n][id].createdAt))
  {
  }

  // ----- Termination -----

  ghost function Unseen(store: Cache, cards: set<Card>): set<Card> {
    set c | c in cards && Newer(store, c)
  }

  ghost function AllUnseen(stores: seq<Cache>, cards: set<Card>): nat {
    if stores == [] then 0 else AllUnseen(stores[..|stores| - 1], cards) + |Unseen(stores[|stores| - 1], cards)|
  }

  ghost function Measure(s: Mesh): nat {
    |s.stores| * AllUnseen(s.stores, s.announced) + |s.wire|
  }

  lemma {:induction false} AllUnseenUpdate(stores: seq<Cache>, n: nat, store: Cache, cards: set<Card>)
    requires n < |stores|
    ensures AllUnseen(stores[n := store], cards) == AllUnseen(stores, cards) - |Unseen(stores[n], cards)| + |Unseen(store, cards)|
  {
    var k := |stores| - 1;
    if n < k {
      AllUnseenUpdate(stores[..k], n, store, cards);
      assert stores[n := store][..k] == stores[..k][n := store];
    } else {
      assert stores[n := store][..k] == stores[..k];
    }
  }

  lemma TakingShrinksUnseen(store: Cache, card: Card, cards: set<Card>)
    requires card in cards && Newer(store, card)
    ensures |Unseen(store[card.id := card], cards)| < |Unseen(store, cards)|
  {
    SubsetCard(Unseen(store[card.id := card], cards), Unseen(store, cards) - {card});
  }

  lemma MulDescends(n: nat, after: nat, before: nat)
    requires after < before
    ensures n * after + n <= n * before
  {
    assert n * (after + 1) <= n * before;
  }

  lemma DeliverWire(verifies: Card -> bool, s: Mesh, m: Msg)
    requires m in s.wire && m.dst < |s.stores|
    ensures |Deliver(verifies, s, m).wire| ==
      |s.wire| - 1 + if verifies(m.card) && Newer(s.stores[m.dst], m.card) then |s.stores| - 1 else 0
  {
  }

  /** Every delivery brings the flood closer to its end, even when it causes new messages. */
  lemma DeliveryDescends(verifies: Card -> bool, s: Mesh, m: Msg)
    requires Sound(verifies, s) && m in s.wire
    ensures Measure(Deliver(verifies, s, m)) < Measure(s)
  {
    DeliverWire(verifies, s, m);
    if verifies(m.card) && Newer(s.stores[m.dst], m.card) {
      var store := s.stores[m.dst][m.card.id := m.card];
      TakingShrinksUnseen(s.stores[m.dst], m.card, s.announced);
      AllUnseenUpdate(s.stores, m.dst, store, s.announced);
      MulDescends(|s.stores|, AllUnseen(s.stores[m.dst := store], s.announced), AllUnseen(s.stores, s.announced));
    }
  }

  ghost predicate Deliverable(verifies: Card -> bool, s: Mesh, ms: seq<Msg>)
    decreases |ms|
  {
    ms != [] ==> ms[0] in s.wire && ms[0].dst < |s.stores| && Deliverable(verifies, Deliver(verifies, s, ms[0]), ms[1..])
  }

  /** What is on the wire after a delivery was there before, or has just been published again. */
  lemma DeliveredWire(verifies: Card -> bool, s: Mesh, m: Msg, w: Msg)
    requires m in s.wire && m.dst < |s.stores| && w in Deliver(verifies, s, m).wire
    ensures w in s.wire || (w.card == m.card && w.dst != m.dst && w.dst < |s.stores| && Newer(s.stores[m.dst], m.card))
  {
    BroadcastReaches(|s.stores|, m.dst, m.card);
  }

  lemma DeliverSound(verifies: Card -> bool, s: Mesh, m: Msg)
    requires Sound(verifies, s) && m in s.wire
    ensures Sound(verifies, Deliver(verifies, s, m))
  {
    var s' := Deliver(verifies, s, m);
    forall w | w in s'.wire ensures w.dst < |s'.stores| && w.card in s'.announced && verifies(w.card) {
      DeliveredWire(verifies, s, m, w);
    }
  }

  /** Without new announcements, the flood ends: no delivery sequence is longer than the measure. */
  lemma {:induction false} FloodTerminates(verifies: Card -> bool, s: Mesh, ms: seq<Msg>)
    requires Sound(verifies, s) && Deliverable(verifies, s, ms)
    ensures |ms| <= Measure(s)
    decreases |ms|
  {
    if ms != [] {
      DeliveryDescends(verifies, s, ms[0]);
      DeliverSound(verifies, s, ms[0]);
      FloodTerminates(verifies, Deliver(verifies, s, ms[0]), ms[1..]);
    }
  }

  // ----- Convergence -----

  predicate AtLeast(a: Card, b: Card) {
    a.id == b.id && a.createdAt >= b.createdAt
  }

  ghost predicate Stored(s: Mesh, n: nat, c: Card)
    requires n < |s.stores|
  {
    c.id in s.stores[n] && s.stores[n][c.id].createdAt >= c.createdAt
  }

  ghost predicate Coming(s: Mesh, n: nat, c: Card) {
    exists m :: m in s.wire && m.dst == n && AtLeast(m.card, c)
  }

  /** Every node has, or is about to receive, a card at least as new as any announced. */
  ghost predicate Flooding(s: Mesh) {
    forall n: nat, c :: n < |s.stores| && c in s.announced ==> Stored(s, n, c) || Coming(s, n, c)
  }

  ghost predicate Inv(verifies: Card -> bool, s: Mesh) {
    Sound(verifies, s) && Flooding(s)
  }

  lemma DeliverFloods(verifies: Card -> bool, s: Mesh, m: Msg)
    requires Inv(verifies, s) && m in s.wire
    ensures Inv(verifies, Deliver(verifies, s, m))
  {
    DeliverSound(verifies, s, m);
    var s' := Deliver(verifies, s, m);
    forall n: nat, c | n < |s'.stores| && c in s'.announced ensures Stored(s', n, c) || Coming(s', n, c) {
      if !Stored(s, n, c) {
        var w :| w in s.wire && w.dst == n && AtLeast(w.card, c);
        if w != m {
          assert w in s'.wire;
        }
      }
    }
  }

  lemma AnnounceFloods(verifies: Card -> bool, s: Mesh, n: nat, card: Card)
    requires Inv(verifies, s) && n < |s.stores| && verifies(card) && !Older(s.stores[n], card)
    ensures Inv(verifies, Announce(s, n, card))
  {
    var s' := Announce(s, n, card);
    BroadcastReaches(|s.stores|, n, card);
    forall k: nat, c | k < |s'.stores| && c in s'.announced ensures Stored(s', k, c) || Coming(s', k, c) {
      if c == card {
        assert k != n ==> Msg(k, card) in s'.wire;
      } else if !Stored(s, k, c) {
        var w :| w in s.wire && w.dst == k && AtLeast(w.card, c);
        assert w in s'.wire;
      }
    }
  }

  datatype Event = DoAnnounce(n: nat, card: Card) | DoDeliver(msg: Msg)

  ghost predicate Enabled(verifies: Card -> bool, s: Mesh, e: Event) {
    match e
    case DoAnnounce(n, card) => n < |s.stores| && verifies(card) && !Older(s.stores[n], card)
    case DoDeliver(m) => m in s.wire && m.dst < |s.stores|
  }

  ghost function Step(verifies: Card -> bool, s: Mesh, e: Event): Mesh
    requires Enabled(verifies, s, e)
  {
    match e
    case DoAnnounce(n, card) => Announce(s, n, card)
    case DoDeliver(m) => Deliver(verifies, s, m)
  }

  ghost predicate Runs(verifies: Card -> bool, s: Mesh, es: seq<Event>)
    decreases |es|
  {
    es != [] ==> Enabled(verifies, s, es[0]) && Runs(verifies, Step(verifies, s, es[0]), es[1..])
  }

  ghost function Run(verifies: Card -> bool, s: Mesh, es: seq<Event>): Mesh
    requires Runs(verifies, s, es)
    decreases |es|
  {
    if es == [] then s else Run(verifies, Step(verifies, s, es[0]), es[1..])
  }

  lemma {:induction false} RunFloods(verifies: Card -> bool, s: Mesh, es: seq<Event>)
    requires Inv(verifies, s) && Runs(verifies, s, es)
    ensures Inv(verifies, Run(verifies, s, es)) && |Run(verifies, s, es).stores| == |s.stores|
    decreases |es|
  {
    if es != [] {
      match es[0] {
        case DoAnnounce(n, card) => AnnounceFloods(verifies, s, n, card);
        case DoDeliver(m) => DeliverFloods(verifies, s, m);
      }
      RunFloods(verifies, Step(verifies, s, es[0]), es[1..]);
    }
  }

  /** A mesh of `n` nodes that know nothing. */
  function Empty(n: nat): Mesh {
    Mesh(seq(n, _ => map[]), multiset{}, {})
  }

  /** The node knows exactly the announced IDs, each with a card of the greatest CreatedAt announced for it. */
  ghost predicate HoldsNewest(store: Cache, announced: set<Card>) {
    && (forall c :: c in announced ==> c.id in store && c.createdAt <= store[c.id].createdAt)
    && (forall id :: id in store ==> store[id].id == id && store[id] in announced)
  }

  /** No two announced cards of one ID share a CreatedAt. */
  ghost predicate Unambiguous(announced: set<Card>) {
    forall c, d :: c in announced && d in announced && c.id == d.id && c.createdAt == d.createdAt ==> c == d
  }

  lemma QuietNode(verifies: Card -> bool, s: Mesh, n: nat)
    requires Inv(verifies, s) && s.wire == multiset{} && n < |s.stores|
    ensures HoldsNewest(s.stores[n], s.announced)
  {
    forall c | c in s.announced ensures Stored(s, n, c) {
      assert !Coming(s, n, c);
    }
  }

  lemma NewestAgree(x: Cache, y: Cache, announced: set<Card>)
    requires HoldsNewest(x, announced) && HoldsNewest(y, announced)
    ensures x.Keys == y.Keys
    ensures forall id :: id in x ==> x[id].createdAt == y[id].createdAt
    ensures Unambiguous(announced) ==> x == y
  {
  }

  /**
    Once nothing is in flight, any two nodes know the same IDs, with the greatest announced CreatedAt
    for each, and hold the very same cards when no two announced cards of an ID share a CreatedAt.
   */
  lemma {:induction false} Converges(verifies: Card -> bool, k: nat, es: seq<Event>, a: nat, b: nat)
    requires Runs(verifies, Empty(k), es) && Run(verifies, Empty(k), es).wire == multiset{}
    requires a < k && b < k
    ensures var s := Run(verifies, Empty(k), es);
      && |s.stores| == k
      && HoldsNewest(s.stores[a], s.announced)
      && s.stores[a].Keys == s.stores[b].Keys
      && (forall id :: id in s.stores[a] ==> s.stores[a][id].createdAt == s.stores[b][id].createdAt)
      && (Unambiguous(s.announced) ==> s.stores[a] == s.stores[b])
  {
    var s := Run(verifies, Empty(k), es);
    RunFloods(verifies, Empty(k), es);
    QuietNode(verifies, s, a);
    QuietNode(verifies, s, b);
    NewestAgree(s.stores[a], s.stores[b], s.announced);
  }

  // ----- Announcing a card older than the announcer's own -----

  /** Whatever the announcer forgot will come back: a card as new is on its way to it, or some other node has yet to take one and publish it. */
  ghost predicate Returning(s: Mesh, n: nat, mine: Card) {
    Coming(s, n, mine) || exists k: nat :: k != n && Lacks(s, k, mine)
  }

  ghost predicate Lacks(s: Mesh, k: nat, c: Card) {
    k < |s.stores| && !Stored(s, k, c)
  }

  /** All nodes have, or are about to receive, what was announced, but for what node `n` forgot; and that will come back. */
  ghost predicate Recovering(s: Mesh, n: nat, mine: Card) {
    && n < |s.stores| && (Stored(s, n, mine) || Returning(s, n, mine))
    && (forall k: nat, c :: k < |s.stores| && c in s.announced ==>
      Stored(s, k, c) || Coming(s, k, c) || (k == n && AtLeast(mine, c)))
  }

  lemma RecoveringStep(verifies: Card -> bool, s: Mesh, m: Msg, n: nat, mine: Card)
    requires Sound(verifies, s) && Recovering(s, n, mine) && mine in s.announced && m in s.wire
    ensures Recovering(Deliver(verifies, s, m), n, mine)
  {
    var s' := Deliver(verifies, s, m);
    forall k: nat, c | k < |s'.stores| && c in s'.announced
      ensures Stored(s', k, c) || Coming(s', k, c) || (k == n && AtLeast(mine, c))
    {
      if Stored(s, k, c) || Coming(s, k, c) {
        StillComing(verifies, s, m, k, c);
      }
    }
    if Stored(s, n, mine) || Coming(s, n, mine) {
      StillComing(verifies, s, m, n, mine);
    } else {
      var k: nat :| k != n && Lacks(s, k, mine);
      assert Coming(s, k, mine);
      StillReturning(verifies, s, m, n, k, mine);
    }
  }

  /** A node that takes the card it lacked publishes it to all others. */
  lemma StillReturning(verifies: Card -> bool, s: Mesh, m: Msg, n: nat, k: nat, mine: Card)
    requires Sound(verifies, s) && m in s.wire && n < |s.stores| && k != n && Lacks(s, k, mine)
    ensures Returning(Deliver(verifies, s, m), n, mine)
  {
    var s' := Deliver(verifies, s, m);
    if Stored(s', k, mine) {
      BroadcastReaches(|s.stores|, m.dst, m.card);
      assert m.dst == k && AtLeast(m.card, mine);
      assert Msg(n, m.card) in s'.wire;
    } else {
      assert Lacks(s', k, mine);
    }
  }

  /** What is stored stays, and what is coming is still coming or has just been stored. */
  lemma StillComing(verifies: Card -> bool, s: Mesh, m: Msg, k: nat, c: Card)
    requires Sound(verifies, s) && m in s.wire && k < |s.stores| && (Stored(s, k, c) || Coming(s, k, c))
    ensures Stored(Deliver(verifies, s, m), k, c) || Coming(Deliver(verifies, s, m), k, c)
    ensures Stored(s, k, c) ==> Stored(Deliver(verifies, s, m), k, c)
  {
    var s' := Deliver(verifies, s, m);
    if !Stored(s, k, c) {
      var w :| w in s.wire && w.dst == k && AtLeast(w.card, c);
      assert w != m ==> w in s'.wire;
    }
  }

  /** Node `n` forgot `mine`, the newest card of its ID, and nothing will bring it back: all others have it already. */
  ghost predicate Stuck(s: Mesh, n: nat, mine: Card) {
    && n < |s.stores| && mine in s.announced && !Stored(s, n, mine) && !Returning(s, n, mine)
    && (forall c :: c in s.announced && c.id == mine.id ==> c.createdAt <= mine.createdAt)
  }

  lemma StuckStep(verifies: Card -> bool, s: Mesh, m: Msg, n: nat, mine: Card)
    requires Sound(verifies, s) && Stuck(s, n, mine) && m in s.wire
    ensures Stuck(Deliver(verifies, s, m), n, mine)
  {
    var s' := Deliver(verifies, s, m);
    assert m.dst == n ==> !AtLeast(m.card, mine);
    forall k: nat | k != n && k < |s.stores| ensures !Lacks(s', k, mine) {
      assert !Lacks(s, k, mine);
      StillComing(verifies, s, m, k, mine);
    }
    forall w | w in s'.wire && w.dst == n ensures !AtLeast(w.card, mine) {
      DeliveredWire(verifies, s, m, w);
      assert m.dst != n ==> !Lacks(s, m.dst, mine);
    }
  }

  /** Deliveries alone, until nothing is in flight. */
  ghost predicate Settles(verifies: Card -> bool, s: Mesh, ms: seq<Msg>)
    decreases |ms|
  {
    if ms == [] then s.wire == multiset{}
    else ms[0] in s.wire && ms[0].dst < |s.stores| && Settles(verifies, Deliver(verifies, s, ms[0]), ms[1..])
  }

  ghost function Settled(verifies: Card -> bool, s: Mesh, ms: seq<Msg>): Mesh
    requires Settles(verifies, s, ms)
    decreases |ms|
  {
    if ms == [] then s else Settled(verifies, Deliver(verifies, s, ms[0]), ms[1..])
  }

  /** Every node knows exactly the announced IDs, each with a card of the greatest CreatedAt announced. */
  ghost predicate Converged(s: Mesh) {
    forall k: nat :: k < |s.stores| ==> HoldsNewest(s.stores[k], s.announced)
  }

  lemma {:induction false} FloodingConverges(verifies: Card -> bool, s: Mesh, ms: seq<Msg>)
    requires Inv(verifies, s) && Settles(verifies, s, ms)
    ensures Converged(Settled(verifies, s, ms))
    decreases |ms|
  {
    if ms == [] {
      forall k: nat | k < |s.stores| ensures HoldsNewest(s.stores[k], s.announced) {
        QuietNode(verifies, s, k);
      }
    } else {
      DeliverFloods(verifies, s, ms[0]);
      FloodingConverges(verifies, Deliver(verifies, s, ms[0]), ms[1..]);
    }
  }

  lemma {:induction false} RecoveringConverges(verifies: Card -> bool, s: Mesh, ms: seq<Msg>, n: nat, mine: Card)
    requires Sound(verifies, s) && Recovering(s, n, mine) && mine in s.announced && Settles(verifies, s, ms)
    ensures Converged(Settled(verifies, s, ms))
    decreases |ms|
  {
    if ms == [] {
      forall j: nat | j != n ensures !Lacks(s, j, mine) {
        assert !Coming(s, j, mine);
      }
      forall k: nat, c | k < |s.stores| && c in s.announced ensures Stored(s, k, c) {
        assert !Coming(s, k, c) && !Coming(s, n, mine);
      }
      FloodingConverges(verifies, s, ms);
    } else {
      RecoveringStep(verifies, s, ms[0], n, mine);
      DeliverSound(verifies, s, ms[0]);
      RecoveringConverges(verifies, Deliver(verifies, s, ms[0]), ms[1..], n, mine);
    }
  }

  lemma {:induction false} StuckDiverges(verifies: Card -> bool, s: Mesh, ms: seq<Msg>, n: nat, mine: Card)
    requires Sound(verifies, s) && Stuck(s, n, mine) && Settles(verifies, s, ms)
    ensures !Converged(Settled(verifies, s, ms))
    decreases |ms|
  {
    if ms == [] {
      assert !HoldsNewest(s.stores[n], s.announced);
    } else {
      StuckStep(verifies, s, ms[0], n, mine);
      DeliverSound(verifies, s, ms[0]);
      StuckDiverges(verifies, Deliver(verifies, s, ms[0]), ms[1..], n, mine);
    }
  }

  lemma AnnounceSound(verifies: Card -> bool, s: Mesh, n: nat, card: Card)
    requires Sound(verifies, s) && n < |s.stores| && verifies(card)
    ensures Sound(verifies, Announce(s, n, card))
  {
    BroadcastReaches(|s.stores|, n, card);
  }

  /** What was coming is still coming, and the announced card is coming to all others. */
  lemma AnnounceWire(s: Mesh, n: nat, card: Card, k: nat, c: Card)
    requires n < |s.stores| && k < |s.stores|
    ensures Coming(s, k, c) ==> Coming(Announce(s, n, card), k, c)
    ensures k != n ==> Coming(Announce(s, n, card), k, card)
    ensures Coming(Announce(s, n, card), k, c) ==> Coming(s, k, c) || (k != n && AtLeast(card, c))
  {
    var s' := Announce(s, n, card);
    BroadcastReaches(|s.stores|, n, card);
    if Coming(s, k, c) {
      var w :| w in s.wire && w.dst == k && AtLeast(w.card, c);
      assert w in s'.wire;
    }
    if k != n {
      assert Msg(k, card) in s'.wire;
    }
  }

  lemma OlderRecovers(verifies: Card -> bool, s: Mesh, n: nat, card: Card)
    requires Inv(verifies, s) && n < |s.stores| && Older(s.stores[n], card) && Returning(s, n, s.stores[n][card.id])
    ensures Recovering(Announce(s, n, card), n, s.stores[n][card.id])
  {
    var mine, s' := s.stores[n][card.id], Announce(s, n, card);
    forall k: nat, c | k < |s'.stores| && c in s'.announced
      ensures Stored(s', k, c) || Coming(s', k, c) || (k == n && AtLeast(mine, c))
    {
      AnnounceWire(s, n, card, k, c);
      assert c != card ==> Stored(s, k, c) || Coming(s, k, c);
    }
    AnnounceWire(s, n, card, n, mine);
    if k: nat :| k != n && Lacks(s, k, mine) {
      assert Lacks(s', k, mine);
    }
  }

  lemma OlderSticks(verifies: Card -> bool, s: Mesh, n: nat, card: Card)
    requires Inv(verifies, s) && n < |s.stores| && Older(s.stores[n], card) && !Returning(s, n, s.stores[n][card.id])
    ensures Stuck(Announce(s, n, card), n, s.stores[n][card.id])
  {
    var mine, s' := s.stores[n][card.id], Announce(s, n, card);
    forall c | c in s.announced && c.id == mine.id ensures c.createdAt <= mine.createdAt {
      assert Stored(s, n, c) || Coming(s, n, c);
    }
    forall k: nat | k != n ensures !Lacks(s', k, mine) {
      assert !Lacks(s, k, mine);
    }
    AnnounceWire(s, n, card, n, mine);
  }

  /**
    The exact condition, for every mesh of the flood and every order of deliveries: after an
    announcement, the mesh has converged when it is next quiet if and only if the card was not older than
    the announcer's own, or that newer card was still on its way back to the announcer or to some other node.
   */
  lemma {:induction false} AnnounceConvergesIff(verifies: Card -> bool, s: Mesh, n: nat, card: Card, ms: seq<Msg>)
    requires Inv(verifies, s) && n < |s.stores| && verifies(card) && Settles(verifies, Announce(s, n, card), ms)
    ensures Converged(Settled(verifies, Announce(s, n, card), ms)) <==>
      !Older(s.stores[n], card) || Returning(s, n, s.stores[n][card.id])
  {
    AnnounceSound(verifies, s, n, card);
    if !Older(s.stores[n], card) {
      AnnounceFloods(verifies, s, n, card);
      FloodingConverges(verifies, Announce(s, n, card), ms);
    } else {
      var mine := s.stores[n][card.id];
      if Returning(s, n, mine) {
        OlderRecovers(verifies, s, n, card);
        RecoveringConverges(verifies, Announce(s, n, card), ms, n, mine);
      } else {
        OlderSticks(verifies, s, n, card);
        StuckDiverges(verifies, Announce(s, n, card), ms, n, mine);
      }
    }
  }

  /** From a quiet mesh: if and only if the card is not older than the announcer's own. */
  lemma {:induction false} QuietAnnounceConvergesIff(verifies: Card -> bool, s: Mesh, n: nat, card: Card, ms: seq<Msg>)
    requires Inv(verifies, s) && s.wire == multiset{} && n < |s.stores| && verifies(card)
    requires Settles(verifies, Announce(s, n, card), ms)
    ensures Converged(Settled(verifies, Announce(s, n, card), ms)) <==> !Older(s.stores[n], card)
  {
    AnnounceConvergesIff(verifies, s, n, card, ms);
    if Older(s.stores[n], card) {
      var mine := s.stores[n][card.id];
      forall k: nat | k < |s.stores| ensures Stored(s, k, mine) && !Coming(s, n, mine) {
        assert !Coming(s, k, mine);
      }
    }
  }

  /** Announcing an older card leaves two quiet nodes that disagree. */
  lemma StaleAnnounceDiverges(id: string, body: Bytes)
    ensures var stale, latest := Card(id, 0, body), Card(id, 1, body);
      var s := Announce(Mesh([map[id := latest], map[id := latest]], multiset{}, {latest}), 0, stale);
      && Msg(1, stale) in s.wire
      && Deliver(_ => true, s, Msg(1, stale)).wire == multiset{}
      && Deliver(_ => true, s, Msg(1, stale)).stores[0] == map[id := stale]
      && Deliver(_ => true, s, Msg(1, stale)).stores[1] == map[id := latest]
  {
    var stale, latest := Card(id, 0, body), Card(id, 1, body);
    var s := Announce(Mesh([map[id := latest], map[id := latest]], multiset{}, {latest}), 0, stale);
    assert Broadcast(2, 0, stale) == [Msg(1, stale)];
    assert s.wire == multiset{Msg(1, stale)};
    assert s.stores[0] == map[id := stale];
  }
}
