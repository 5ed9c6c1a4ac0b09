/** The expiring route table and the presence gossip that feeds it (internal/relay/router.go, router_view.go, presence.go). */
module Router {
  import opened Common

  const PRESENCE_TTL: Time := 60 * SECOND
  const PRESENCE_REFRESH: Time := 45 * SECOND

  datatype Route = Route(via: PeerId, expires: Time)
  type Table = map<PeerId, Route>

  function Lookup(table: Table, target: PeerId, now: Time): Option<PeerId> {
    if target in table && now <= table[target].expires then Some(table[target].via) else None
  }

  datatype Op =
    | Upsert(target: PeerId, via: PeerId, ttl: Time, now: Time)
    | Remove(target: PeerId, now: Time)
    | Prune(now: Time)

  function Apply(table: Table, op: Op): Table {
    match op
    case Upsert(target, via, ttl, now) => table[target := Route(via, now + ttl)]
    case Remove(target, _) => table - {target}
    case Prune(now) => map p | p in table && now <= table[p].expires :: table[p]
  }

  // ----- The table against its history -----

  function Run(ops: seq<Op>): Table {
    if ops == [] then map[] else Apply(Run(ops[..|ops| - 1]), ops[|ops| - 1])
  }

  ghost predicate Ordered(ops: seq<Op>) {
    forall i, k :: 0 <= i < k < |ops| ==> ops[i].now <= ops[k].now
  }

  /** The last upsert of a target, unless a remove followed it. Prunes and expiry play no part. */
  function Last(ops: seq<Op>, target: PeerId): Option<Route> {
    if ops == [] then None
    else
      match ops[|ops| - 1]
      case Upsert(p, via, ttl, now) => if p == target then Some(Route(via, now + ttl)) else Last(ops[..|ops| - 1], target)
      case Remove(p, _) => if p == target then None else Last(ops[..|ops| - 1], target)
      case Prune(_) => Last(ops[..|ops| - 1], target)
  }

  /** The table holds the last upsert, or has pruned it after its expiry. */
  lemma {:induction false} TableFollowsHistory(ops: seq<Op>, target: PeerId)
    requires Ordered(ops)
    ensures target in Run(ops) ==> Last(ops, target) == Some(Run(ops)[target])
    ensures target !in Run(ops) && Last(ops, target).Some? ==>
      ops != [] && Last(ops, target).value.expires < ops[|ops| - 1].now
  {
    if ops != [] {
      TableFollowsHistory(ops[..|ops| - 1], target);
    }
  }

  /** Pruning is invisible: a lookup is decided by the last upsert or remove and its expiry. */
  lemma {:induction false} RefinesHistory(ops: seq<Op>, target: PeerId, t: Time)
    requires Ordered(ops)
    requires ops == [] || ops[|ops| - 1].now <= t
    ensures Lookup(Run(ops), target, t) ==
      match Last(ops, target)
      case Some(r) => if t <= r.expires then Some(r.via) else None
      case None => None
  {
    TableFollowsHistory(ops, target);
  }

  // ----- Presence -----

  /** A decoded presence message; a peer ID that fails to decode is None. */
  datatype PresenceMsg = PresenceMsg(peer: Option<PeerId>, via: Option<PeerId>, ttlSeconds: int, tombstone: bool)

  function AnnounceMsg(app: PeerId, self: PeerId): PresenceMsg {
    PresenceMsg(Some(app), Some(self), PRESENCE_TTL / SECOND, false)
  }

  /** What a received message does to the table. A tombstone names no via: it removes any route. */
  function Heard(m: PresenceMsg, fromSelf: bool, now: Time): Option<Op> {
    if fromSelf || m.peer.None? || m.via.None? then None
    else if m.tombstone then Some(Remove(m.peer.value, now))
    else Some(Upsert(m.peer.value, m.via.value, if m.ttlSeconds * SECOND <= 0 then PRESENCE_TTL else m.ttlSeconds * SECOND, now))
  }

  /** The message is from another node and names an app and a node. */
  predicate Taken(m: PresenceMsg, fromSelf: bool) {
    !fromSelf && m.peer.Some? && m.via.Some?
  }

  /** How long an announced route lives: as long as the message says, a minute if it does not. */
  function TtlOf(m: PresenceMsg): (ttl: Time)
    ensures ttl > 0 && (m.ttlSeconds > 0 ==> ttl == m.ttlSeconds * 1_000_000_000) && (m.ttlSeconds <= 0 ==> ttl == 60 * 1_000_000_000)
  {
    if m.ttlSeconds > 0 then m.ttlSeconds * SECOND else PRESENCE_TTL
  }

  // ----- A node that listens, against what was said -----

  /** A message is processed, or the table is pruned. */
  datatype Turn = Hear(msg: PresenceMsg, fromSelf: bool, now: Time) | Tidy(now: Time)

  predicate About(e: Turn, app: PeerId) {
    e.Hear? && Taken(e.msg, e.fromSelf) && e.msg.peer.value == app
  }

  /** What node and until when the messages say for an app: the last announcement, if no tombstone followed it. */
  function Said(es: seq<Turn>, app: PeerId): Option<Route> {
    if es == [] then None
    else
      var e := es[|es| - 1];
      if !About(e, app) then Said(es[..|es| - 1], app)
      else if e.msg.tombstone then None
      else Some(Route(e.msg.via.value, e.now + TtlOf(e.msg)))
  }

  function OpOf(e: Turn): Option<Op> {
    match e
    case Hear(msg, fromSelf, now) => Heard(msg, fromSelf, now)
    case Tidy(now) => Some(Prune(now))
  }

  /** The table operations these amount to. */
  function OpsOf(es: seq<Turn>): seq<Op> {
    if es == [] then [] else OpsOf(es[..|es| - 1]) + if OpOf(es[|es| - 1]).Some? then [OpOf(es[|es| - 1]).value] else []
  }

  ghost predicate InOrder(es: seq<Turn>) {
    forall i, k :: 0 <= i < k < |es| ==> es[i].now <= es[k].now
  }

  lemma LastOneMore(ops: seq<Op>, op: Op, app: PeerId)
    ensures Last(ops + [op], app) ==
      match op
      case Upsert(p, via, ttl, now) => if p == app then Some(Route(via, now + ttl)) else Last(ops, app)
      case Remove(p, _) => if p == app then None else Last(ops, app)
      case Prune(_) => Last(ops, app)
  {
    assert (ops + [op])[..|ops|] == ops;
  }

  lemma {:induction false} SaidIsLast(es: seq<Turn>, app: PeerId)
    ensures Last(OpsOf(es), app) == Said(es, app)
  {
    if es != [] {
      var e, ops := es[|es| - 1], OpsOf(es[..|es| - 1]);
      SaidIsLast(es[..|es| - 1], app);
      if OpOf(e).Some? {
        LastOneMore(ops, OpOf(e).value, app);
      } else {
        assert OpsOf(es) == ops;
      }
    }
  }

  lemma {:induction false} OpsInOrder(es: seq<Turn>, t: Time)
    requires InOrder(es) && (es == [] || es[|es| - 1].now <= t)
    ensures Ordered(OpsOf(es)) && forall i :: 0 <= i < |OpsOf(es)| ==> OpsOf(es)[i].now <= t
  {
    if es != [] {
      OpsInOrder(es[..|es| - 1], es[|es| - 1].now);
    }
  }

  /**
    Whatever messages a node hears, and whenever it prunes, an app is found exactly up to the lifetime of
    its last announcement, at the node that made it, unless a tombstone for it followed from anyone.
   */
  lemma {:induction false} FoundAsSaid(es: seq<Turn>, app: PeerId, t: Time)
    requires InOrder(es) && (es == [] || es[|es| - 1].now <= t)
    ensures Lookup(Run(OpsOf(es)), app, t) ==
      match Said(es, app)
      case Some(r) => if t <= r.expires then Some(r.via) else None
      case None => None
  {
    SaidIsLast(es, app);
    OpsInOrder(es, t);
    RefinesHistory(OpsOf(es), app, t);
  }

  function TombstoneMsg(app: PeerId, self: PeerId): PresenceMsg {
    PresenceMsg(Some(app), Some(self), 0, true)
  }

  lemma SaidOneMore(es: seq<Turn>, app: PeerId, home: PeerId, at: Time)
    ensures Said(es + [Hear(AnnounceMsg(app, home), false, at)], app) == Some(Route(home, at + 60 * SECOND))
    ensures Said(es + [Hear(TombstoneMsg(app, home), false, at)], app) == None
  {
  }

  /** An app that connects to a node is found there for a minute by every other node that hears of it, and when it leaves, by none. */
  lemma {:induction false} ComesAndGoes(es: seq<Turn>, app: PeerId, home: PeerId, at: Time, t: Time)
    requires InOrder(es) && (es == [] || es[|es| - 1].now <= at) && at <= t
    ensures Lookup(Run(OpsOf(es + [Hear(AnnounceMsg(app, home), false, at)])), app, t) ==
      if t <= at + 60 * SECOND then Some(home) else None
    ensures Lookup(Run(OpsOf(es + [Hear(TombstoneMsg(app, home), false, at)])), app, t) == None
  {
    SaidOneMore(es, app, home, at);
    FoundAsSaid(es + [Hear(AnnounceMsg(app, home), false, at)], app, t);
    FoundAsSaid(es + [Hear(TombstoneMsg(app, home), false, at)], app, t);
  }

  datatype Announcement = Announcement(sent: Time, received: Time, via: PeerId)

  /** Sent at most a refresh interval apart, each processed within 15 s, in order. */
  ghost predicate OnSchedule(anns: seq<Announcement>) {
    && anns != []
    && (forall i :: 0 <= i < |anns| ==> anns[i].sent <= anns[i].received <= anns[i].sent + 15 * SECOND)
    && (forall i :: 0 < i < |anns| ==> anns[i].sent <= anns[i - 1].sent + PRESENCE_REFRESH)
  }

  function Upserts(ops: seq<Op>, app: PeerId): seq<Op> {
    if ops == [] then []
    else
      var op := ops[|ops| - 1];
      Upserts(ops[..|ops| - 1], app) + if op.Upsert? && op.target == app then [op] else []
  }

  lemma {:induction false} UpsertsSplit(a: seq<Op>, b: seq<Op>, app: PeerId)
    ensures Upserts(a + b, app) == Upserts(a, app) + Upserts(b, app)
    ensures forall op :: op in Upserts(b, app) ==> op in b
  {
    if b == [] {
      assert a + b == a;
    } else {
      UpsertsSplit(a, b[..|b| - 1], app);
      assert (a + b)[..|a + b| - 1] == a + b[..|b| - 1];
    }
  }

  lemma {:induction false} LastUpsert(ops: seq<Op>, app: PeerId)
    requires forall i :: 0 <= i < |ops| ==> ops[i] != Remove(app, ops[i].now)
    requires Upserts(ops, app) != []
    ensures var u := Upserts(ops, app)[|Upserts(ops, app)| - 1]; u.Upsert? && Last(ops, app) == Some(Route(u.via, u.now + u.ttl))
  {
    var op := ops[|ops| - 1];
    if !(op.Upsert? && op.target == app) {
      LastUpsert(ops[..|ops| - 1], app);
    }
  }

  /** The table operations on `app` in `ops` are the receipts of `anns`, and no tombstone. */
  ghost predicate Hears(ops: seq<Op>, app: PeerId, anns: seq<Announcement>) {
    && |Upserts(ops, app)| == |anns|
    && (forall i :: 0 <= i < |anns| ==>
      Some(Upserts(ops, app)[i]) == Heard(AnnounceMsg(app, anns[i].via), false, anns[i].received))
    && (forall i :: 0 <= i < |ops| ==> ops[i] != Remove(app, ops[i].now))
  }

  /**
    While an app is announced on schedule its route never lapses: at any instant `t` from the first
    receipt to one TTL after the last, after the `k` operations processed so far, the lookup
    returns the latest announcer, whatever else was upserted, removed or pruned.
   */
  lemma {:induction false} NeverLapses(ops: seq<Op>, app: PeerId, anns: seq<Announcement>, k: nat, t: Time)
    requires Ordered(ops) && OnSchedule(anns) && Hears(ops, app, anns)
    requires k <= |ops|
    requires forall i :: 0 <= i < k ==> ops[i].now <= t
    requires forall i :: k <= i < |ops| ==> t <= ops[i].now
    requires Upserts(ops[..k], app) != []
    requires t <= anns[|anns| - 1].received + PRESENCE_TTL
    ensures 0 < |Upserts(ops[..k], app)| <= |anns|
    ensures Lookup(Run(ops[..k]), app, t) == Some(anns[|Upserts(ops[..k], app)| - 1].via)
  {
    LiveUntilNext(ops, app, anns, k, t);
    HeardAnnouncement(ops, app, anns, |Upserts(ops[..k], app)| - 1);
    LastUpsert(ops[..k], app);
    RefinesHistory(ops[..k], app, t);
  }

  lemma HeardAnnouncement(ops: seq<Op>, app: PeerId, anns: seq<Announcement>, i: nat)
    requires Hears(ops, app, anns) && i < |anns|
    ensures Upserts(ops, app)[i] == Upsert(app, anns[i].via, PRESENCE_TTL, anns[i].received)
  {
  }

  /** The announcements processed by `t` are a start of the schedule, and the last of them is not over a TTL ago. */
  lemma {:induction false} LiveUntilNext(ops: seq<Op>, app: PeerId, anns: seq<Announcement>, k: nat, t: Time)
    requires OnSchedule(anns) && Hears(ops, app, anns) && k <= |ops| && Upserts(ops[..k], app) != []
    requires forall i :: k <= i < |ops| ==> t <= ops[i].now
    requires t <= anns[|anns| - 1].received + PRESENCE_TTL
    ensures var n := |Upserts(ops[..k], app)|;
      n <= |anns| && Upserts(ops, app)[n - 1] == Upserts(ops[..k], app)[n - 1] && t <= anns[n - 1].received + PRESENCE_TTL
  {
    var done, due := ops[..k], ops[k..];
    var n := |Upserts(done, app)|;
    assert ops == done + due;
    UpsertsSplit(done, due, app);
    if n < |anns| {
      assert Upserts(ops, app)[n] == Upserts(due, app)[0];
      assert Upserts(due, app)[0] in due;
      HeardAnnouncement(ops, app, anns, n);
      NextInTime(anns, n);
    }
  }

  /** On schedule, a route has not expired when the next announcement is processed. */
  lemma NextInTime(anns: seq<Announcement>, n: nat)
    requires OnSchedule(anns) && 0 < n < |anns|
    ensures anns[n].received <= anns[n - 1].received + PRESENCE_TTL
  {
  }

  datatype PeerRoute = PeerRoute(peer: PeerId, via: PeerId)

  class RoutingTable {
    var table: Table

    constructor ()
      ensures table == map[]
    {
      table := map[];
    }

    method Upsert(target: PeerId, via: PeerId, ttl: Time, now: Time)
      modifies this
      ensures table == Apply(old(table), Op.Upsert(target, via, ttl, now))
      ensures table == old(table)[target := Route(via, now + ttl)]
    {
      table := table[target := Route(via, now + ttl)];
    }

    method Remove(target: PeerId)
      modifies this
      ensures forall now :: table == Apply(old(table), Op.Remove(target, now))
      ensures target !in table && forall p :: p != target ==> (p in table <==> p in old(table)) && (p in table ==> table[p] == old(table)[p])
    {
      table := table - {target};
    }

    method Find(target: PeerId, now: Time) returns (via: Option<PeerId>)
      ensures via == Lookup(table, target, now)
    {
      if target !in table || now > table[target].expires {
        return None;
      }
      return Some(table[target].via);
    }

    method PruneExpired(now: Time)
      modifies this
      ensures table == Apply(old(table), Prune(now))
      ensures forall p :: p in table <==> p in old(table) && now <= old(table)[p].expires
      ensures forall p :: p in table ==> table[p] == old(table)[p]
    {
      ghost var t0 := table;
      var todo := table.Keys;
      while todo != {}
        invariant todo <= table.Keys <= t0.Keys
        invariant forall p :: p in t0 && p !in todo ==> (p in table <==> now <= t0[p].expires)
        invariant forall p :: p in table ==> table[p] == t0[p]
      {
        var p :| p in todo;
        if now > table[p].expires {
          table := table - {p};
        }
        todo := todo - {p};
      }
    }

    /** Lists, once each, the peers a lookup finds, except those expiring at this very instant. */
    method Snapshot(now: Time) returns (out: seq<PeerRoute>)
      ensures forall i, k :: 0 <= i < k < |out| ==> out[i].peer != out[k].peer
      ensures forall p, via :: PeerRoute(p, via) in out <==>
        Lookup(table, p, now) == Some(via) && table[p].expires != now
    {
      out := [];
      var todo := table.Keys;
      while todo != {}
        invariant todo <= table.Keys
        invariant forall i :: 0 <= i < |out| ==> out[i].peer in table && out[i].peer !in todo
        invariant forall i, k :: 0 <= i < k < |out| ==> out[i].peer != out[k].peer
        invariant forall p, via :: PeerRoute(p, via) in out <==>
          p !in todo && Lookup(table, p, now) == Some(via) && table[p].expires != now
      {
        var p :| p in todo;
        if now < table[p].expires {
          out := out + [PeerRoute(p, table[p].via)];
        }
        todo := todo - {p};
      }
    }

    method Online(now: Time) returns (out: seq<PeerId>)
      ensures forall i, k :: 0 <= i < k < |out| ==> out[i] != out[k]
      ensures forall p :: p in out <==> Lookup(table, p, now).Some? && table[p].expires != now
    {
      out := [];
      var todo := table.Keys;
      while todo != {}
        invariant todo <= table.Keys
        invariant forall i, k :: 0 <= i < k < |out| ==> out[i] != out[k]
        invariant forall p :: p in out <==> p !in todo && Lookup(table, p, now).Some? && table[p].expires != now
      {
        var p :| p in todo;
        if now < table[p].expires {
          out := out + [p];
        }
        todo := todo - {p};
      }
    }

    /** One turn of the presence read loop: updates the table and says what event fires. */
    method Receive(m: PresenceMsg, fromSelf: bool, now: Time) returns (fired: Option<(PeerId, PeerId, bool)>)
      modifies this
      ensures Heard(m, fromSelf, now).None? ==> table == old(table) && fired.None?
      ensures Heard(m, fromSelf, now).Some? ==>
        && table == Apply(old(table), Heard(m, fromSelf, now).value)
        && fired == Some((m.peer.value, m.via.value, Heard(m, fromSelf, now).value.Upsert?))
      ensures Taken(m, fromSelf) ==>
        && (forall t :: Lookup(table, m.peer.value, t) == (if !m.tombstone && t <= now + TtlOf(m) then Some(m.via.value) else None))
        && (forall p, t :: p != m.peer.value ==> Lookup(table, p, t) == Lookup(old(table), p, t))
        && fired == Some((m.peer.value, m.via.value, !m.tombstone))
      ensures !Taken(m, fromSelf) ==> table == old(table) && fired.None?
    {
      if fromSelf || m.peer.None? || m.via.None? {
        return None;
      }
      if m.tombstone {
        Remove(m.peer.value);
        return Some((m.peer.value, m.via.value, false));
      }
      var ttl := m.ttlSeconds * SECOND;
      if ttl <= 0 {
        ttl := PRESENCE_TTL;
      }
      Upsert(m.peer.value, m.via.value, ttl, now);
      return Some((m.peer.value, m.via.value, true));
    }
  }
}
