/**
  Rendezvous records across nodes whose clocks need not agree: registration, gossip, re-announcement,
  clamping, persistence and restart (internal/api/rendezvous.go, internal/api/server.go, internal/relay/rendezvous.go).
 */
module RendezvousNet {
  import opened Common
  import opened Rendezvous

  datatype Site = Site(now: Time, entries: Entries, disk: Disk)

  /** A registration that has been stored and not yet announced. */
  datatype Pending = Pending(site: PeerId, ns: Bytes, record: Bytes, ttl: Time)

  /** An app's registration stored or announced at `at` on the clock of the node that did it. */
  datatype Origin = Origin(ns: Bytes, record: Bytes, at: Time)

  /** Messages stay on the wire for ever: they may arrive late, twice or never. */
  datatype World = World(sites: map<PeerId, Site>, wire: set<Msg>, pending: set<Pending>, origins: set<Origin>)

  datatype Event =
    | Register(site: PeerId, ns: Bytes, record: Bytes, ttlSecs: int)
    | Announce(what: Pending)
    | Reannounce(site: PeerId, ns: Bytes)
    | Receive(site: PeerId, msg: Msg)
    | Ask(site: PeerId, ns: Bytes)
    | Clean(site: PeerId)
    | Restart(site: PeerId)
    | Tick(site: PeerId, to: Time)

  ghost predicate Enabled(w: World, e: Event) {
    match e
    case Announce(p) => p in w.pending && p.site in w.sites
    case Reannounce(n, ns) =>
      n in w.sites && ns in w.sites[n].entries && w.sites[n].entries[ns].local && w.sites[n].entries[ns].expires > w.sites[n].now
    case Receive(n, msg) => n in w.sites && msg in w.wire
    case Tick(n, to) => n in w.sites && w.sites[n].now <= to
    case _ => e.site in w.sites
  }

  /** Entries change, and the file with them when they did. */
  function Update(x: Site, entries: Entries): Site {
    x.(entries := entries, disk := if entries != x.entries then Saved(entries) else x.disk)
  }

  function Step(w: World, e: Event): World
    requires Enabled(w, e)
  {
    match e
    case Register(n, ns, record, secs) =>
      var x := w.sites[n];
      if ns == [] || record == [] || |record| > MAX_RECORD_LEN || Full(x.entries, ns) then w
      else
        var entries := Put(x.entries, ns, record, ClampTtl(secs), x.now);
        w.(sites := w.sites[n := x.(entries := entries, disk := Saved(entries))],
           pending := w.pending + {Pending(n, ns, record, ClampTtl(secs))},
           origins := w.origins + {Origin(ns, record, x.now)})
    case Announce(p) =>
      var now := w.sites[p.site].now;
      w.(pending := w.pending - {p}, wire := w.wire + {Announcement(p.ns, p.record, now + p.ttl)},
         origins := w.origins + {Origin(p.ns, p.record, now)})
    case Reannounce(n, ns) =>
      var entry := w.sites[n].entries[ns];
      w.(wire := w.wire + {Announcement(ns, entry.record, entry.expires)})
    case Receive(n, msg) => w.(sites := w.sites[n := Update(w.sites[n], Received(w.sites[n].entries, msg, w.sites[n].now))])
    case Ask(n, ns) =>
      w.(sites := w.sites[n := w.sites[n].(entries := Looked(w.sites[n].entries, ns, w.sites[n].now))])
    case Clean(n) => w.(sites := w.sites[n := Update(w.sites[n], Purged(w.sites[n].entries, w.sites[n].now))])
    case Restart(n) => w.(sites := w.sites[n := w.sites[n].(entries := Loaded(w.sites[n].disk, w.sites[n].now))])
    case Tick(n, to) => w.(sites := w.sites[n := w.sites[n].(now := to)])
  }

  ghost predicate Runs(w: World, es: seq<Event>)
    decreases |es|
  {
    es != [] ==> Enabled(w, es[0]) && Runs(Step(w, es[0]), es[1..])
  }

  ghost function Run(w: World, es: seq<Event>): World
    requires Runs(w, es)
    decreases |es|
  {
    if es == [] then w else Run(Step(w, es[0]), es[1..])
  }

  // ----- Nothing extends a record -----

  /** Some registration or announcement of this record was at most an hour before `expires`. */
  ghost predicate Backed(origins: set<Origin>, ns: Bytes, record: Bytes, expires: Time) {
    exists o :: o in origins && o.ns == ns && o.record == record && expires <= o.at + HOUR
  }

  ghost predicate EntriesBacked(origins: set<Origin>, m: Entries) {
    forall ns :: ns in m ==> Backed(origins, ns, m[ns].record, m[ns].expires)
  }

  ghost predicate DiskBacked(origins: set<Origin>, d: Disk) {
    forall ns :: ns in d ==> Backed(origins, ns, d[ns].record, d[ns].expires * SECOND)
  }

  ghost predicate SiteBacked(origins: set<Origin>, x: Site) {
    EntriesBacked(origins, x.entries) && DiskBacked(origins, x.disk)
  }

  ghost predicate WireBacked(origins: set<Origin>, wire: set<Msg>) {
    forall m :: m in wire ==> Backed(origins, m.ns, m.record, m.expires * MILLI)
  }

  ghost predicate Traced(w: World) {
    && (forall n :: n in w.sites ==> SiteBacked(w.origins, w.sites[n]))
    && WireBacked(w.origins, w.wire)
    && (forall p :: p in w.pending ==> p.ttl <= HOUR)
  }

  lemma StepTraced(w: World, e: Event)
    requires Traced(w) && Enabled(w, e)
    ensures Traced(Step(w, e))
  {
  }

  ghost predicate Init(w: World) {
    && w.wire == {} && w.pending == {} && w.origins == {}
    && forall n :: n in w.sites ==> w.sites[n].entries == map[] && w.sites[n].disk == map[]
  }

  lemma {:induction false} RunTraced(w: World, es: seq<Event>)
    requires Traced(w) && Runs(w, es)
    ensures Traced(Run(w, es))
    decreases |es|
  {
    if es != [] {
      StepTraced(w, es[0]);
      RunTraced(Step(w, es[0]), es[1..]);
    }
  }

  /**
    In every run, whoever holds, re-announces, receives, saves or reloads a record, its expiry is at
    most an hour after some time at which it was registered or announced.
   */
  lemma {:induction false} NothingExtendsARecord(w: World, es: seq<Event>)
    requires Init(w) && Runs(w, es)
    ensures Traced(Run(w, es))
  {
    RunTraced(w, es);
  }

  /** So a node whose clock is over an hour past every origin of a record no longer answers with it. */
  lemma RecordsAreForgotten(w: World, es: seq<Event>, n: PeerId, ns: Bytes, record: Bytes)
    requires Init(w) && Runs(w, es) && n in Run(w, es).sites
    requires forall o :: o in Run(w, es).origins && o.ns == ns && o.record == record ==> o.at + HOUR < Run(w, es).sites[n].now
    ensures var answer := Lookup(Run(w, es).sites[n].entries, ns, Run(w, es).sites[n].now);
      answer.Some? ==> answer.value.0 != record
  {
    NothingExtendsARecord(w, es);
    assert SiteBacked(Run(w, es).origins, Run(w, es).sites[n]);
  }

  // ----- Restarts -----

  /** The file holds what the store holds; what else it holds is over. */
  ghost predicate Filed(x: Site) {
    && (forall ns :: ns in x.entries ==> x.entries[ns].record != [] && ns in x.disk && x.disk[ns] == Saved(x.entries)[ns])
    && (forall ns :: ns in x.disk && ns !in x.entries ==> x.disk[ns].expires * SECOND <= x.now)
  }

  ghost predicate AllFiled(w: World) {
    forall n :: n in w.sites ==> Filed(w.sites[n])
  }

  lemma LookedFiled(x: Site, ns: Bytes)
    requires Filed(x)
    ensures Filed(x.(entries := Looked(x.entries, ns, x.now)))
  {
  }

  lemma ReceivedFiled(x: Site, msg: Msg)
    requires Filed(x)
    ensures Filed(Update(x, Received(x.entries, msg, x.now)))
  {
  }

  lemma PurgedFiled(x: Site)
    requires Filed(x)
    ensures Filed(Update(x, Purged(x.entries, x.now)))
  {
  }

  lemma LoadedFiled(x: Site)
    requires Filed(x)
    ensures Filed(x.(entries := Loaded(x.disk, x.now)))
  {
  }

  lemma {:induction false} StepFiled(w: World, e: Event)
    requires AllFiled(w) && Enabled(w, e)
    ensures AllFiled(Step(w, e))
  {
    match e
    case Register(_, _, _, _) =>
    case Announce(_) =>
    case Reannounce(_, _) =>
    case Receive(n, msg) => ReceivedFiled(w.sites[n], msg);
    case Ask(n, ns) => LookedFiled(w.sites[n], ns);
    case Clean(n) => PurgedFiled(w.sites[n]);
    case Restart(n) => LoadedFiled(w.sites[n]);
    case Tick(_, _) =>
  }

  lemma {:induction false} RunFiled(w: World, es: seq<Event>)
    requires AllFiled(w) && Runs(w, es)
    ensures AllFiled(Run(w, es))
    decreases |es|
  {
    if es != [] {
      StepFiled(w, es[0]);
      RunFiled(Step(w, es[0]), es[1..]);
    }
  }

  lemma RestartedSite(x: Site, ns: Bytes, t: Time)
    requires Filed(x) && x.now <= t
    ensures var m, m' := x.entries, Loaded(x.disk, x.now);
      && Lookup(m', ns, t) == (
        if ns in m && x.now < Cut(m[ns].expires) && t <= Cut(m[ns].expires) then Some((m[ns].record, Cut(m[ns].expires))) else None)
      && (ns in m' ==> ns in m && m'[ns].local == m[ns].local)
  {
    if ns in x.entries {
      CutBy(x.entries[ns].expires, SECOND);
    }
  }

  /** In every run, a restart changes no answer but to cut its expiry to the second: what a node answered it answers until then, and nothing new. */
  lemma {:induction false} RestartKeepsAnswers(w: World, es: seq<Event>, n: PeerId, ns: Bytes, t: Time)
    requires Init(w) && Runs(w, es) && n in Run(w, es).sites && Run(w, es).sites[n].now <= t
    ensures var w' := Run(w, es);
      var m, m', now := w'.sites[n].entries, Step(w', Restart(n)).sites[n].entries, w'.sites[n].now;
      && Lookup(m', ns, t) == (
        if ns in m && now < Cut(m[ns].expires) && t <= Cut(m[ns].expires) then Some((m[ns].record, Cut(m[ns].expires))) else None)
      && (ns in m' ==> ns in m && m'[ns].local == m[ns].local)
  {
    RunFiled(w, es);
    RestartedSite(Run(w, es).sites[n], ns, t);
  }

  // ----- A registered record -----

  /** The node has the record as its own until `until` at least, in the store and on file. */
  ghost predicate Keeps(x: Site, ns: Bytes, record: Bytes, until: Time) {
    && ns in x.entries && x.entries[ns].record == record && x.entries[ns].local && until <= x.entries[ns].expires
    && ns in x.disk && x.disk[ns].record == record && x.disk[ns].local && until <= x.disk[ns].expires * SECOND
  }

  /** The step neither registers the namespace at the node again nor brings it a later, other record for it. */
  ghost predicate Peaceful(w: World, e: Event, n: PeerId, ns: Bytes, record: Bytes) {
    match e
    case Register(m, other, _, _) => m != n || other != ns
    case Receive(m, msg) => m == n && msg.ns == ns && msg.record != record && n in w.sites && ns in w.sites[n].entries ==>
      msg.expires * MILLI <= w.sites[n].entries[ns].expires
    case _ => true
  }

  ghost predicate AllPeaceful(w: World, es: seq<Event>, n: PeerId, ns: Bytes, record: Bytes)
    requires Runs(w, es)
    decreases |es|
  {
    es != [] ==> Peaceful(w, es[0], n, ns, record) && AllPeaceful(Step(w, es[0]), es[1..], n, ns, record)
  }

  lemma SavedKeeps(x: Site, m: Entries, ns: Bytes, record: Bytes, until: Time)
    requires ns in m && m[ns].record == record && m[ns].local && until <= m[ns].expires && until % SECOND == 0
    ensures Keeps(x.(entries := m, disk := Saved(m)), ns, record, until)
  {
    CutBy(m[ns].expires, SECOND);
  }

  lemma ReceivedKeeps(x: Site, msg: Msg, ns: Bytes, record: Bytes, until: Time)
    requires Keeps(x, ns, record, until) && until % SECOND == 0
    requires msg.ns == ns && msg.record != record ==> msg.expires * MILLI <= x.entries[ns].expires
    ensures Keeps(Update(x, Received(x.entries, msg, x.now)), ns, record, until)
  {
    SavedKeeps(x, Received(x.entries, msg, x.now), ns, record, until);
  }

  lemma PurgedKeeps(x: Site, ns: Bytes, record: Bytes, until: Time)
    requires Keeps(x, ns, record, until) && until % SECOND == 0 && x.now < until
    ensures Keeps(Update(x, Purged(x.entries, x.now)), ns, record, until)
  {
    SavedKeeps(x, Purged(x.entries, x.now), ns, record, until);
  }

  lemma {:induction false} StepKeeps(w: World, e: Event, n: PeerId, ns: Bytes, record: Bytes, until: Time)
    requires Enabled(w, e) && n in w.sites && Keeps(w.sites[n], ns, record, until) && Peaceful(w, e, n, ns, record)
    requires record != [] && until % SECOND == 0 && w.sites[n].now < until
    ensures n in Step(w, e).sites && Keeps(Step(w, e).sites[n], ns, record, until) && w.sites[n].now <= Step(w, e).sites[n].now
  {
    match e
    case Register(m, other, rec, secs) =>
      if m == n {
        SavedKeeps(w.sites[n], Put(w.sites[n].entries, other, rec, ClampTtl(secs), w.sites[n].now), ns, record, until);
      }
    case Receive(m, msg) => if m == n { ReceivedKeeps(w.sites[n], msg, ns, record, until); }
    case Clean(m) => if m == n { PurgedKeeps(w.sites[n], ns, record, until); }
    case Announce(_) =>
    case Reannounce(_, _) =>
    case Ask(_, _) =>
    case Restart(_) =>
    case Tick(_, _) =>
  }

  lemma {:induction false} ClockRuns(w: World, es: seq<Event>, n: PeerId)
    requires Runs(w, es) && n in w.sites
    ensures n in Run(w, es).sites && w.sites[n].now <= Run(w, es).sites[n].now
    decreases |es|
  {
    if es != [] {
      ClockRuns(Step(w, es[0]), es[1..], n);
    }
  }

  lemma {:induction false} RunKeeps(w: World, es: seq<Event>, n: PeerId, ns: Bytes, record: Bytes, until: Time)
    requires Runs(w, es) && n in w.sites && Keeps(w.sites[n], ns, record, until) && AllPeaceful(w, es, n, ns, record)
    requires record != [] && until % SECOND == 0 && n in Run(w, es).sites && Run(w, es).sites[n].now < until
    ensures Keeps(Run(w, es).sites[n], ns, record, until)
    decreases |es|
  {
    if es != [] {
      ClockRuns(w, es, n);
      StepKeeps(w, es[0], n, ns, record, until);
      RunKeeps(Step(w, es[0]), es[1..], n, ns, record, until);
    }
  }

  /** The record has been announced with an expiry between the two. */
  ghost predicate AnnouncedFor(wire: set<Msg>, ns: Bytes, record: Bytes, from: Time, to: Time) {
    exists msg :: msg in wire && msg.ns == ns && msg.record == record && from <= msg.expires * MILLI <= to
  }

  /** An app registers a record the node accepts. */
  ghost predicate Accepts(w: World, n: PeerId, ns: Bytes, record: Bytes) {
    n in w.sites && ns != [] && 1 <= |record| <= 8192 && (ns in w.sites[n].entries || |w.sites[n].entries| < 20000)
  }

  /**
    A record registered for `secs` seconds, whatever lookups, sweeps, restarts and other traffic follow,
    is answered by its node, and announced again whenever the node does so, until its lifetime, cut to the
    second, is over; unless the namespace is registered again or another record for it comes that expires later.
   */
  lemma {:induction false} RegisteredStaysAnnounced(w: World, n: PeerId, ns: Bytes, record: Bytes, secs: int, es: seq<Event>, until: Time)
    requires Accepts(w, n, ns, record) && until == Cut(w.sites[n].now + ClampTtl(secs))
    requires var w' := Step(w, Register(n, ns, record, secs));
      && Runs(w', es) && AllPeaceful(w', es, n, ns, record)
      && n in Run(w', es).sites && Run(w', es).sites[n].now < until
    ensures var w'' := Run(Step(w, Register(n, ns, record, secs)), es);
      var answer := Lookup(w''.sites[n].entries, ns, w''.sites[n].now);
      && answer.Some? && answer.value.0 == record && until <= answer.value.1
      && Enabled(w'', Reannounce(n, ns))
      && AnnouncedFor(Step(w'', Reannounce(n, ns)).wire, ns, record, until, answer.value.1)
  {
    var w' := Step(w, Register(n, ns, record, secs));
    var x := w.sites[n];
    SavedKeeps(x, Put(x.entries, ns, record, ClampTtl(secs), x.now), ns, record, until);
    RunKeeps(w', es, n, ns, record, until);
    var w'' := Run(w', es);
    var expires := w''.sites[n].entries[ns].expires;
    MilliBetween(expires, until);
    assert Announcement(ns, record, expires) in Step(w'', Reannounce(n, ns)).wire;
  }

  /** A registration is announced with its whole lifetime, to the millisecond. */
  lemma {:induction false} RegisteredIsAnnounced(w: World, n: PeerId, ns: Bytes, record: Bytes, secs: int)
    requires Accepts(w, n, ns, record)
    ensures var ttl := ClampTtl(secs);
      var w', what := Step(w, Register(n, ns, record, secs)), Pending(n, ns, record, ttl);
      && Enabled(w', Announce(what))
      && AnnouncedFor(Step(w', Announce(what)).wire, ns, record, w.sites[n].now + ttl - MILLI + 1, w.sites[n].now + ttl)
  {
    var ttl := ClampTtl(secs);
    var w' := Step(w, Register(n, ns, record, secs));
    CutBy(w.sites[n].now + ttl, MILLI);
    assert Announcement(ns, record, w.sites[n].now + ttl) in Step(w', Announce(Pending(n, ns, record, ttl))).wire;
  }

  lemma MilliBetween(t: Time, until: Time)
    requires until <= t && until % SECOND == 0
    ensures until <= t / MILLI * MILLI <= t
  {
    CutBy(t, MILLI);
    assert until % MILLI == 0;
  }

  /** And whoever hears the announcement while it is welcome there answers with the record until the announced expiry, or an hour from then. */
  lemma {:induction false} HeardIsAnswered(w: World, m: PeerId, msg: Msg, t: Time)
    requires m in w.sites && msg in w.wire && Welcome(w.sites[m].entries, msg, w.sites[m].now) && t <= KeptUntil(msg, w.sites[m].now)
    ensures Lookup(Step(w, Receive(m, msg)).sites[m].entries, msg.ns, t) == Some((msg.record, KeptUntil(msg, w.sites[m].now)))
  {
    ReceiverAnswers(w.sites[m].entries, msg, w.sites[m].now, msg.ns, t);
  }

  /** A sweep removes exactly what has expired, from the file too; a lookup removes what it finds expired; a restart brings none of it back. */
  lemma {:induction false} ExpiredIsRemoved(w: World, n: PeerId, ns: Bytes)
    requires n in w.sites && AllFiled(w)
    ensures var x := w.sites[n];
      var swept, asked := Step(w, Event.Clean(n)).sites[n], Step(w, Event.Ask(n, ns)).sites[n];
      && (ns in swept.entries <==> ns in x.entries && x.now <= x.entries[ns].expires)
      && (ns in x.entries && ns !in swept.entries ==> ns !in swept.disk)
      && (ns in asked.entries <==> ns in x.entries && x.now <= x.entries[ns].expires)
      && (ns in x.entries && x.entries[ns].expires < x.now ==> ns !in Loaded(asked.disk, asked.now))
  {
    var x := w.sites[n];
    assert Filed(x);
    if ns in x.entries {
      CutBy(x.entries[ns].expires, SECOND);
      assert ns !in Purged(x.entries, x.now) ==> Purged(x.entries, x.now) != x.entries;
    }
  }
}
