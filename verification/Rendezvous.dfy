/** The rendezvous directory of one node: capped, expiring, persisted (internal/api/rendezvous.go, internal/relay/rendezvous.go). */
module Rendezvous {
  import opened Common

  const MAX_ENTRIES: nat := 20000
  const MAX_RECORD_LEN: nat := 8 * 1024
  const MAX_NAMESPACE_LEN: nat := 128
  const MAX_TTL_SECS: int := 3600
  const MILLI: Time := 1_000_000

  datatype Entry = Entry(record: Bytes, expires: Time, local: bool)
  type Entries = map<Bytes, Entry>

  /** An answer carries the record and its expiry. */
  function Lookup(m: Entries, ns: Bytes, now: Time): Option<(Bytes, Time)> {
    if ns in m && now <= m[ns].expires then Some((m[ns].record, m[ns].expires)) else None
  }

  predicate Full(m: Entries, ns: Bytes) {
    ns !in m && |m| >= MAX_ENTRIES
  }

  /** A local registration overwrites, even with an earlier expiry. */
  function Put(m: Entries, ns: Bytes, record: Bytes, ttl: Time, now: Time): Entries {
    if Full(m, ns) then m else m[ns := Entry(record, now + ttl, true)]
  }

  /** A remote record is taken only if it expires later than what is there. */
  function PutRemote(m: Entries, ns: Bytes, record: Bytes, ttl: Time, now: Time): Entries {
    if (ns in m && m[ns].expires >= now + ttl) || Full(m, ns) then m
    else m[ns := Entry(record, now + ttl, ns in m && m[ns].local)]
  }

  /** A lookup deletes the entry it finds expired. */
  function Looked(m: Entries, ns: Bytes, now: Time): Entries {
    if ns in m && now > m[ns].expires then m - {ns} else m
  }

  function Purged(m: Entries, now: Time): Entries {
    map ns | ns in m && now <= m[ns].expires :: m[ns]
  }

  function ClampTtl(secs: int): (ttl: Time)
    ensures 0 < ttl <= HOUR
    ensures 0 < secs * SECOND <= HOUR <==> ttl == secs * SECOND
    ensures ttl == secs * SECOND || ttl == HOUR
  {
    if secs <= 0 || secs > MAX_TTL_SECS then MAX_TTL_SECS * SECOND else secs * SECOND
  }

  // ----- Gossip messages -----

  /** `expires` counts milliseconds. */
  datatype Msg = Msg(ns: Bytes, record: Bytes, expires: int)

  function Announcement(ns: Bytes, record: Bytes, expires: Time): Msg {
    Msg(ns, record, expires / MILLI)
  }

  predicate WellFormed(m: Msg) {
    0 < |m.ns| <= MAX_NAMESPACE_LEN && 0 < |m.record| <= MAX_RECORD_LEN
  }

  /** One turn of the gossip read loop: filter, clamp to an hour, merge. */
  function Received(m: Entries, msg: Msg, now: Time): Entries {
    var ttl := msg.expires * MILLI - now;
    if !WellFormed(msg) || ttl <= 0 then m
    else PutRemote(m, msg.ns, msg.record, if ttl > HOUR then HOUR else ttl, now)
  }

  // ----- Persistence -----

  /** `expires` counts seconds. */
  datatype Persisted = Persisted(record: Bytes, expires: int, local: bool)
  type Disk = map<Bytes, Persisted>

  function Saved(m: Entries): Disk {
    map ns | ns in m :: Persisted(m[ns].record, m[ns].expires / SECOND, m[ns].local)
  }

  function Loaded(d: Disk, now: Time): Entries {
    map ns | ns in d && d[ns].record != [] && d[ns].expires * SECOND > now ::
      Entry(d[ns].record, d[ns].expires * SECOND, d[ns].local)
  }

  class Store {
    var entries: Entries
    /** What the file holds; never written when `path` is empty. */
    var disk: Disk
    const path: string

    constructor (path: string, disk: Disk, now: Time)
      ensures this.path == path && this.disk == disk
      ensures entries == if path == "" then map[] else Loaded(disk, now)
      ensures forall ns :: ns in entries <==> path != "" && ns in disk && disk[ns].record != [] && now < disk[ns].expires * SECOND
      ensures forall ns :: ns in entries ==> entries[ns] == Entry(disk[ns].record, disk[ns].expires * SECOND, disk[ns].local)
    {
      this.path := path;
      this.disk := disk;
      entries := map[];
      new;
      if path != "" {
        var todo := disk.Keys;
        while todo != {}
          modifies this`entries
          invariant todo <= disk.Keys
          invariant entries == map ns | ns in Loaded(disk, now) && ns !in todo :: Loaded(disk, now)[ns]
        {
          var ns :| ns in todo;
          var e := disk[ns];
          if e.record != [] && e.expires * SECOND > now {
            entries := entries[ns := Entry(e.record, e.expires * SECOND, e.local)];
          }
          todo := todo - {ns};
        }
        assert entries == Loaded(disk, now);
      }
    }

    method Persist()
      modifies this`disk
      ensures disk == if path == "" then old(disk) else Saved(entries)
      ensures path != "" ==> disk.Keys == entries.Keys && forall ns :: ns in entries ==>
        disk[ns].record == entries[ns].record && disk[ns].local == entries[ns].local
        && disk[ns].expires * SECOND <= entries[ns].expires < (disk[ns].expires + 1) * SECOND
    {
      if path == "" {
        return;
      }
      var m: Disk := map[];
      var todo := entries.Keys;
      while todo != {}
        invariant todo <= entries.Keys
        invariant m == map ns | ns in entries && ns !in todo :: Saved(entries)[ns]
      {
        var ns :| ns in todo;
        m := m[ns := Persisted(entries[ns].record, entries[ns].expires / SECOND, entries[ns].local)];
        todo := todo - {ns};
      }
      assert m == Saved(entries);
      disk := m;
    }

    method Register(ns: Bytes, record: Bytes, ttl: Time, now: Time) returns (ok: bool)
      modifies this
      ensures ok <==> ns in old(entries) || |old(entries)| < 20000
      ensures entries == if ok then old(entries)[ns := Entry(record, now + ttl, true)] else old(entries)
      ensures entries == Put(old(entries), ns, record, ttl, now)
      ensures disk == if ok && path != "" then Saved(entries) else old(disk)
    {
      if ns !in entries && |entries| >= MAX_ENTRIES {
        return false;
      }
      entries := entries[ns := Entry(record, now + ttl, true)];
      Persist();
      return true;
    }

    method MergeRemote(ns: Bytes, record: Bytes, ttl: Time, now: Time)
      modifies this
      ensures entries == PutRemote(old(entries), ns, record, ttl, now)
      ensures entries ==
        if ns in old(entries) && old(entries)[ns].expires < now + ttl then old(entries)[ns := Entry(record, now + ttl, old(entries)[ns].local)]
        else if ns !in old(entries) && |old(entries)| < 20000 then old(entries)[ns := Entry(record, now + ttl, false)]
        else old(entries)
      ensures disk == if entries != old(entries) && path != "" then Saved(entries) else old(disk)
    {
      var expires := now + ttl;
      if ns in entries && entries[ns].expires >= expires {
        return;
      }
      if ns !in entries && |entries| >= MAX_ENTRIES {
        return;
      }
      var local := ns in entries && entries[ns].local;
      entries := entries[ns := Entry(record, expires, local)];
      assert entries[ns].expires == expires;
      Persist();
    }

    method Get(ns: Bytes, now: Time) returns (record: Option<Bytes>)
      modifies this`entries
      ensures entries == Looked(old(entries), ns, now)
      ensures entries == if ns in old(entries) && old(entries)[ns].expires < now then old(entries) - {ns} else old(entries)
      ensures Lookup(old(entries), ns, now).None? ==> record.None?
      ensures Lookup(old(entries), ns, now).Some? ==> record == Some(Lookup(old(entries), ns, now).value.0)
    {
      if ns !in entries {
        return None;
      }
      if now > entries[ns].expires {
        entries := entries - {ns};
        return None;
      }
      return Some(entries[ns].record);
    }

    /** One tick of the janitor; the file is rewritten only when something was removed. */
    method Janitor(now: Time)
      modifies this
      ensures entries == Purged(old(entries), now)
      ensures forall ns :: ns in entries <==> ns in old(entries) && now <= old(entries)[ns].expires
      ensures forall ns :: ns in entries ==> entries[ns] == old(entries)[ns]
      ensures disk == if entries != old(entries) && path != "" then Saved(entries) else old(disk)
    {
      ghost var m0 := entries;
      var removed := 0;
      var todo := entries.Keys;
      while todo != {}
        modifies this`entries
        invariant todo <= entries.Keys <= m0.Keys
        invariant forall ns :: ns in m0 && ns !in todo ==> (ns in entries <==> now <= m0[ns].expires)
        invariant forall ns :: ns in entries ==> entries[ns] == m0[ns]
        invariant 0 <= removed && (removed == 0 <==> entries == m0)
      {
        var ns :| ns in todo;
        if now > entries[ns].expires {
          entries := entries - {ns};
          removed := removed + 1;
          assert ns in m0 && ns !in entries;
        }
        todo := todo - {ns};
      }
      assert entries == Purged(m0, now);
      if removed > 0 {
        Persist();
      }
    }

    /** The unexpired local entries, once each, to be announced again with the expiry they have. */
    method LocalEntries(now: Time) returns (out: seq<(Bytes, Bytes, Time)>)
      ensures forall i, k :: 0 <= i < k < |out| ==> out[i].0 != out[k].0
      ensures forall e :: e in out <==>
        e.0 in entries && entries[e.0] == Entry(e.1, e.2, true) && e.2 > now
    {
      out := [];
      var todo := entries.Keys;
      while todo != {}
        invariant todo <= entries.Keys
        invariant forall i, k :: 0 <= i < k < |out| ==> out[i].0 != out[k].0
        invariant forall e :: e in out <==>
          e.0 in entries && e.0 !in todo && entries[e.0] == Entry(e.1, e.2, true) && e.2 > now
      {
        var ns :| ns in todo;
        if entries[ns].local && entries[ns].expires > now {
          out := out + [(ns, entries[ns].record, entries[ns].expires)];
        }
        todo := todo - {ns};
      }
    }
  }

  // ----- Saving, loading and receiving, by what is then answered -----

  /** An instant cut to the whole second. */
  function Cut(t: Time): (c: Time)
    ensures c <= t < c + SECOND && c % SECOND == 0
  {
    t - t % SECOND
  }

  lemma CutBy(t: Time, unit: Time)
    requires unit > 0
    ensures t / unit * unit == t - t % unit
  {
  }

  /**
    A node that saves and restarts answers exactly the records whose expiry, cut to the whole second, is
    still ahead, up to that instant; and knows which of them were its own.
   */
  lemma {:induction false} ReloadAnswers(m: Entries, ns: Bytes, now: Time, t: Time)
    requires now <= t
    ensures Lookup(Loaded(Saved(m), now), ns, t) ==
      if ns in m && m[ns].record != [] && now < Cut(m[ns].expires) && t <= Cut(m[ns].expires) then Some((m[ns].record, Cut(m[ns].expires))) else None
    ensures ns in Loaded(Saved(m), now) ==> ns in m && Loaded(Saved(m), now)[ns].local == m[ns].local
  {
    if ns in m {
      CutBy(m[ns].expires, SECOND);
    }
  }

  /** How long a receiver keeps what it hears at `now`: as announced, and an hour at most. */
  function KeptUntil(msg: Msg, now: Time): (until: Time)
    ensures until <= msg.expires * MILLI && until <= now + 3600 * SECOND
    ensures until == msg.expires * MILLI || until == now + 3600 * SECOND
  {
    if msg.expires * MILLI <= now + HOUR then msg.expires * MILLI else now + HOUR
  }

  /** The message is alive, of a size that is accepted, for a namespace there is room for, and expires later than what is there. */
  predicate Welcome(m: Entries, msg: Msg, now: Time) {
    && 1 <= |msg.ns| <= 128 && 1 <= |msg.record| <= 8192 && now < msg.expires * MILLI
    && if msg.ns in m then m[msg.ns].expires < KeptUntil(msg, now) else |m| < 20000
  }

  /** A receiver answers a welcome record from then on until it expires, and otherwise as before. */
  lemma {:induction false} ReceiverAnswers(m: Entries, msg: Msg, now: Time, ns: Bytes, t: Time)
    ensures Lookup(Received(m, msg, now), ns, t) ==
      if ns == msg.ns && Welcome(m, msg, now) then if t <= KeptUntil(msg, now) then Some((msg.record, KeptUntil(msg, now))) else None
      else Lookup(m, ns, t)
    ensures ns in Received(m, msg, now) && Received(m, msg, now)[ns].local ==> ns in m && m[ns].local
    ensures ns in m ==> ns in Received(m, msg, now) && Received(m, msg, now)[ns].local == m[ns].local
  {
  }

  // ----- Deleting is invisible -----

  datatype Op =
    | DoPut(ns: Bytes, record: Bytes, ttl: Time, now: Time)
    | DoPutRemote(ns: Bytes, record: Bytes, ttl: Time, now: Time)
    | DoGet(ns: Bytes, now: Time)
    | DoSweep(now: Time)

  function Apply(m: Entries, op: Op): Entries {
    match op
    case DoPut(ns, record, ttl, now) => Put(m, ns, record, ttl, now)
    case DoPutRemote(ns, record, ttl, now) => PutRemote(m, ns, record, ttl, now)
    case DoGet(ns, now) => Looked(m, ns, now)
    case DoSweep(now) => Purged(m, now)
  }

  /** The reference store: no cap, and nothing is ever deleted. */
  function ApplyKeeping(m: Entries, op: Op): Entries {
    match op
    case DoPut(ns, record, ttl, now) => m[ns := Entry(record, now + ttl, true)]
    case DoPutRemote(ns, record, ttl, now) =>
      if ns in m && m[ns].expires >= now + ttl then m else m[ns := Entry(record, now + ttl, false)]
    case DoGet(_, _) => m
    case DoSweep(_) => m
  }

  function Run(m: Entries, ops: seq<Op>): Entries {
    if ops == [] then m else Apply(Run(m, ops[..|ops| - 1]), ops[|ops| - 1])
  }

  function RunKeeping(m: Entries, ops: seq<Op>): Entries {
    if ops == [] then m else ApplyKeeping(RunKeeping(m, ops[..|ops| - 1]), ops[|ops| - 1])
  }

  ghost predicate Ordered(ops: seq<Op>) {
    forall i, k :: 0 <= i < k < |ops| ==> ops[i].now <= ops[k].now
  }

  /** No insert meets a full store, and remote records have time to live (the read loop drops others). */
  ghost predicate Admitted(m: Entries, ops: seq<Op>) {
    forall i :: 0 <= i < |ops| && (ops[i].DoPut? || ops[i].DoPutRemote?) ==>
      !Full(Run(m, ops[..i]), ops[i].ns) && (ops[i].DoPutRemote? ==> ops[i].ttl > 0)
  }

  /** The stores agree, except that the deleting one may lack what has expired. */
  ghost predicate Agree(m: Entries, kept: Entries, ns: Bytes, now: Time) {
    && (ns in m ==> ns in kept && kept[ns].record == m[ns].record && kept[ns].expires == m[ns].expires)
    && (ns in kept && ns !in m ==> kept[ns].expires < now)
  }

  lemma {:induction false} RunsAgree(m: Entries, ops: seq<Op>, ns: Bytes)
    requires Ordered(ops) && Admitted(m, ops)
    ensures ops == [] ==> Run(m, ops) == RunKeeping(m, ops) == m
    ensures ops != [] ==> Agree(Run(m, ops), RunKeeping(m, ops), ns, ops[|ops| - 1].now)
  {
    if ops != [] {
      var before := ops[..|ops| - 1];
      forall i | 0 <= i < |before| ensures before[..i] == ops[..i] {}
      RunsAgree(m, before, ns);
      var op := ops[|ops| - 1];
      assert ops[..|ops| - 1] == before;
      ApplyAgrees(Run(m, before), RunKeeping(m, before), op, ns);
    }
  }

  lemma ApplyAgrees(m: Entries, kept: Entries, op: Op, ns: Bytes)
    requires Agree(m, kept, ns, op.now)
    requires op.DoPut? || op.DoPutRemote? ==> !Full(m, op.ns) && (op.DoPutRemote? ==> op.ttl > 0)
    ensures Agree(Apply(m, op), ApplyKeeping(kept, op), ns, op.now)
  {
  }

  /** Any interleaving of puts, remote puts, deleting lookups and janitor sweeps answers like the store that never deletes. */
  lemma {:induction false} DeletingIsInvisible(m: Entries, ops: seq<Op>, ns: Bytes, t: Time)
    requires Ordered(ops) && Admitted(m, ops)
    requires ops == [] || ops[|ops| - 1].now <= t
    ensures Lookup(Run(m, ops), ns, t) == Lookup(RunKeeping(m, ops), ns, t)
  {
    RunsAgree(m, ops, ns);
  }

  // ----- Merging gossip is independent of order and duplication -----

  datatype Event = Hear(msg: Msg, now: Time) | Ask(ns: Bytes, now: Time) | Clean(now: Time)

  function React(m: Entries, e: Event): Entries {
    match e
    case Hear(msg, now) => Received(m, msg, now)
    case Ask(ns, now) => Looked(m, ns, now)
    case Clean(now) => Purged(m, now)
  }

  function Reacted(m: Entries, es: seq<Event>): Entries {
    if es == [] then m else React(Reacted(m, es[..|es| - 1]), es[|es| - 1])
  }

  /** What was on offer for a namespace: its first entry and every well-formed message heard, as a set. */
  ghost function Offers(m: Entries, es: seq<Event>, ns: Bytes): set<(Bytes, Time)> {
    if es == [] then if ns in m then {(m[ns].record, m[ns].expires)} else {}
    else
      var e := es[|es| - 1];
      Offers(m, es[..|es| - 1], ns) +
        if e.Hear? && WellFormed(e.msg) && e.msg.ns == ns then {(e.msg.record, e.msg.expires * MILLI)} else {}
  }

  /** In time order, each message within an hour of its expiry, and never at the cap. */
  ghost predicate Plain(m: Entries, es: seq<Event>) {
    && (forall i, k :: 0 <= i < k < |es| ==> es[i].now <= es[k].now)
    && (forall i :: 0 <= i < |es| && es[i].Hear? ==>
      es[i].msg.expires * MILLI - es[i].now <= HOUR && !Full(Reacted(m, es[..i]), es[i].msg.ns))
  }

  /** The entry is one of the offers, and expires no earlier than any offer still alive. */
  ghost predicate HoldsLatest(m: Entries, offers: set<(Bytes, Time)>, ns: Bytes, now: Time) {
    && (ns in m ==> (m[ns].record, m[ns].expires) in offers)
    && (forall o :: o in offers && o.1 > now ==> ns in m && m[ns].expires >= o.1)
  }

  lemma {:induction false} KeepsLatest(m: Entries, es: seq<Event>, ns: Bytes, t: Time)
    requires Plain(m, es)
    requires es == [] || es[|es| - 1].now <= t
    ensures HoldsLatest(Reacted(m, es), Offers(m, es, ns), ns, t)
  {
    if es != [] {
      var before := es[..|es| - 1];
      forall i | 0 <= i < |before| ensures before[..i] == es[..i] {}
      KeepsLatest(m, before, ns, es[|es| - 1].now);
      ReactKeepsLatest(Reacted(m, before), es[|es| - 1], Offers(m, before, ns), ns);
    }
  }

  lemma ReactKeepsLatest(m: Entries, e: Event, offers: set<(Bytes, Time)>, ns: Bytes)
    requires HoldsLatest(m, offers, ns, e.now)
    requires e.Hear? ==> e.msg.expires * MILLI - e.now <= HOUR && !Full(m, e.msg.ns)
    ensures var more := if e.Hear? && WellFormed(e.msg) && e.msg.ns == ns then {(e.msg.record, e.msg.expires * MILLI)} else {};
      HoldsLatest(React(m, e), offers + more, ns, e.now)
  {
  }

  /** Offers that expire together are the same offer. */
  ghost predicate Distinct(offers: set<(Bytes, Time)>) {
    forall a, b :: a in offers && b in offers && a.1 == b.1 ==> a == b
  }

  /**
    Two nodes that start equal and hear the same records, in any order and any number of times, give
    the same answer at `t`, unless the latest expiry is exactly `t`.
   */
  lemma {:induction false} OrderIsIrrelevant(m: Entries, es: seq<Event>, es': seq<Event>, ns: Bytes, t: Time)
    requires Plain(m, es) && Plain(m, es')
    requires es == [] || es[|es| - 1].now <= t
    requires es' == [] || es'[|es'| - 1].now <= t
    requires Offers(m, es, ns) == Offers(m, es', ns) && Distinct(Offers(m, es, ns))
    requires forall o :: o in Offers(m, es, ns) && o.1 == t ==> exists later :: later in Offers(m, es, ns) && later.1 > t
    ensures Lookup(Reacted(m, es), ns, t) == Lookup(Reacted(m, es'), ns, t)
  {
    KeepsLatest(m, es, ns, t);
    KeepsLatest(m, es', ns, t);
  }

  // ----- At exactly the latest expiry -----

  predicate Has(m: Entries, ns: Bytes, o: (Bytes, Time)) {
    ns in m && (m[ns].record, m[ns].expires) == o
  }

  predicate Offered(e: Event, ns: Bytes, o: (Bytes, Time)) {
    e.Hear? && WellFormed(e.msg) && e.msg.ns == ns && (e.msg.record, e.msg.expires * MILLI) == o
  }

  /** `o` was there from the start, or was heard before it expired. */
  ghost predicate InTime(m: Entries, es: seq<Event>, ns: Bytes, o: (Bytes, Time)) {
    if es == [] then Has(m, ns, o)
    else
      var e := es[|es| - 1];
      InTime(m, es[..|es| - 1], ns, o) || (Offered(e, ns, o) && e.now < o.1)
  }

  /** `o` is the only offer with the latest expiry. */
  ghost predicate Latest(offers: set<(Bytes, Time)>, o: (Bytes, Time)) {
    o in offers && forall a :: a in offers && a != o ==> a.1 < o.1
  }

  lemma ReactAtExpiry(m: Entries, e: Event, ns: Bytes, o: (Bytes, Time))
    requires e.now <= o.1
    requires forall a :: (Has(m, ns, a) || Offered(e, ns, a)) && a != o ==> a.1 < o.1
    requires e.Hear? ==> e.msg.expires * MILLI - e.now <= HOUR && !Full(m, e.msg.ns)
    ensures Has(React(m, e), ns, o) <==> (Has(m, ns, o) || (Offered(e, ns, o) && e.now < o.1))
  {
    if ns in m {
      assert Has(m, ns, (m[ns].record, m[ns].expires));
    }
    match e
    case Hear(msg, now) => assert msg.ns == ns && WellFormed(msg) ==> Offered(e, ns, (msg.record, msg.expires * MILLI));
    case Ask(_, _) =>
    case Clean(_) =>
  }

  lemma {:induction false} HoldsIfInTime(m: Entries, es: seq<Event>, ns: Bytes, o: (Bytes, Time))
    requires Plain(m, es)
    requires es == [] || es[|es| - 1].now <= o.1
    requires forall a :: a in Offers(m, es, ns) && a != o ==> a.1 < o.1
    ensures Has(Reacted(m, es), ns, o) <==> InTime(m, es, ns, o)
  {
    if es != [] {
      var before := es[..|es| - 1];
      forall i | 0 <= i < |before| ensures before[..i] == es[..i] {}
      HoldsIfInTime(m, before, ns, o);
      KeepsLatest(m, before, ns, o.1);
      ReactAtExpiry(Reacted(m, before), es[|es| - 1], ns, o);
    }
  }

  /**
    At the very instant the latest offer for a namespace expires, a node answers with it if it was the
    starting entry or was heard before that instant, and otherwise has no answer at all.
   */
  lemma {:induction false} AtTheExpiryInstant(m: Entries, es: seq<Event>, ns: Bytes, o: (Bytes, Time))
    requires Plain(m, es) && Latest(Offers(m, es, ns), o)
    requires es == [] || es[|es| - 1].now <= o.1
    ensures Lookup(Reacted(m, es), ns, o.1) == if InTime(m, es, ns, o) then Some(o) else None
  {
    HoldsIfInTime(m, es, ns, o);
    KeepsLatest(m, es, ns, o.1);
  }

  /**
    The exact condition: two nodes that start equal and hear the same records answer alike at `t` if and
    only if the latest expiry is not `t`, or both or neither got that record in time.
   */
  lemma {:induction false} OrderMattersIff(m: Entries, es: seq<Event>, es': seq<Event>, ns: Bytes, t: Time)
    requires Plain(m, es) && Plain(m, es')
    requires es == [] || es[|es| - 1].now <= t
    requires es' == [] || es'[|es'| - 1].now <= t
    requires Offers(m, es, ns) == Offers(m, es', ns) && Distinct(Offers(m, es, ns))
    ensures Lookup(Reacted(m, es), ns, t) == Lookup(Reacted(m, es'), ns, t) <==>
      forall o :: Latest(Offers(m, es, ns), o) && o.1 == t ==> (InTime(m, es, ns, o) <==> InTime(m, es', ns, o))
  {
    if o :| o in Offers(m, es, ns) && o.1 == t && forall later :: later in Offers(m, es, ns) ==> later.1 <= t {
      assert Latest(Offers(m, es, ns), o);
      AtTheExpiryInstant(m, es, ns, o);
      AtTheExpiryInstant(m, es', ns, o);
    } else {
      OrderIsIrrelevant(m, es, es', ns, t);
    }
  }

  /** At exactly the latest expiry the answer does depend on when the record was heard. */
  lemma ExpiryInstantMatters(ns: Bytes, record: Bytes)
    requires WellFormed(Msg(ns, record, 1))
    ensures var early, late := [Hear(Msg(ns, record, 1), 0)], [Hear(Msg(ns, record, 1), MILLI)];
      && Plain(map[], early) && Plain(map[], late) && Offers(map[], early, ns) == Offers(map[], late, ns)
      && Lookup(Reacted(map[], early), ns, MILLI) == Some((record, MILLI))
      && Lookup(Reacted(map[], late), ns, MILLI) == None
  {
  }
}
