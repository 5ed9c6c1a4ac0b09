/** Saving, loading and dialling remembered peers (internal/host/peers.go). */
module PeerFile {
  import opened Common
  import opened Peers

  // ----- The order of the list -----

  predicate Less(a: string, b: string) {
    b != [] && (a == [] || a[0] < b[0] || (a[0] == b[0] && Less(a[1..], b[1..])))
  }

  lemma {:induction false} LessTotal(a: string, b: string)
    ensures a == b ==> !Less(a, b) && !Less(b, a)
    ensures a != b ==> (Less(a, b) <==> !Less(b, a))
  {
    if a != [] && b != [] && a[0] == b[0] {
      LessTotal(a[1..], b[1..]);
      assert a == [a[0]] + a[1..] && b == [b[0]] + b[1..];
    }
  }

  lemma {:induction false} LessTransitive(a: string, b: string, c: string)
    requires Less(a, b) && Less(b, c)
    ensures Less(a, c)
  {
    if a != [] && a[0] == b[0] == c[0] {
      LessTransitive(a[1..], b[1..], c[1..]);
    }
  }

  /** Most recently seen first, then by ID. */
  predicate Before(p: Peer, q: Peer) {
    p.lastSeen > q.lastSeen || (p.lastSeen == q.lastSeen && Less(p.id, q.id))
  }

  /** The strings agree for `n` characters, and then the first ends or has the smaller character. */
  predicate Differ(a: string, b: string, n: nat) {
    n <= |a| && n < |b| && a[..n] == b[..n] && (n == |a| || a[n] < b[n])
  }

  lemma DifferHeads(a: string, b: string, n: nat)
    requires Differ(a, b, n) && n > 0
    ensures a[0] == b[0]
  {
    assert a[0] == a[..n][0] && b[0] == b[..n][0];
  }

  lemma DifferTails(a: string, b: string, n: nat)
    requires a != [] && b != [] && a[0] == b[0]
    ensures Differ(a, b, n + 1) <==> Differ(a[1..], b[1..], n)
  {
    if n < |a| && n < |b| {
      assert a[..n + 1] == [a[0]] + a[1..][..n] && b[..n + 1] == [b[0]] + b[1..][..n];
      assert a[..n + 1][1..] == a[1..][..n] && b[..n + 1][1..] == b[1..][..n];
    }
  }

  lemma {:induction false} LessMeans(a: string, b: string)
    ensures Less(a, b) <==> exists n: nat :: Differ(a, b, n)
  {
    forall n: nat | Differ(a, b, n) ensures n == 0 || (a != [] && b != [] && a[0] == b[0] && Differ(a[1..], b[1..], n - 1)) {
      if n > 0 {
        DifferHeads(a, b, n);
        DifferTails(a, b, n - 1);
      }
    }
    if a != [] && b != [] && a[0] == b[0] {
      LessMeans(a[1..], b[1..]);
      if n: nat :| Differ(a[1..], b[1..], n) {
        DifferTails(a, b, n);
      }
    } else {
      assert Less(a, b) <==> Differ(a, b, 0);
    }
  }

  /** The order of the list: the peer seen later comes first, and of two seen at once the one with the smaller ID. */
  lemma {:induction false} BeforeMeans(p: Peer, q: Peer)
    ensures Before(p, q) <==> p.lastSeen > q.lastSeen || (p.lastSeen == q.lastSeen && exists n: nat :: Differ(p.id, q.id, n))
  {
    LessMeans(p.id, q.id);
  }

  lemma BeforeTotal(p: Peer, q: Peer)
    ensures p.id == q.id && p.lastSeen == q.lastSeen ==> !Before(p, q)
    ensures p.id != q.id ==> (Before(p, q) <==> !Before(q, p))
    ensures Before(p, q) ==> !Before(q, p)
  {
    LessTotal(p.id, q.id);
  }

  lemma BeforeTransitive(p: Peer, q: Peer, r: Peer)
    requires Before(p, q) && Before(q, r)
    ensures Before(p, r)
  {
    if p.lastSeen == q.lastSeen == r.lastSeen {
      LessTransitive(p.id, q.id, r.id);
    }
  }

  ghost predicate Ranked(ps: seq<Peer>) {
    forall i, k :: 0 <= i < k < |ps| ==> Before(ps[i], ps[k])
  }

  /** `ps` lists `all` in order. */
  ghost predicate Ranks(ps: seq<Peer>, all: set<Peer>) {
    Ranked(ps) && forall p :: p in ps <==> p in all
  }

  /** There is only one such list, so sorting with an unstable sort is deterministic. */
  lemma {:induction false} RankingUnique(a: seq<Peer>, b: seq<Peer>, all: set<Peer>)
    requires Ranks(a, all) && Ranks(b, all)
    ensures a == b
  {
    assert a != [] ==> a[0] in all && a[0] in b;
    assert b != [] ==> b[0] in all && b[0] in a;
    if a != [] {
      HeadsAgree(a, b);
      RankTail(a, all);
      RankTail(b, all);
      RankingUnique(a[1..], b[1..], all - {a[0]});
    }
  }

  lemma HeadsAgree(a: seq<Peer>, b: seq<Peer>)
    requires Ranked(a) && Ranked(b) && a != [] && b != [] && a[0] in b && b[0] in a
    ensures a[0] == b[0]
  {
    BeforeTotal(a[0], b[0]);
  }

  lemma RankTail(ps: seq<Peer>, all: set<Peer>)
    requires Ranks(ps, all) && ps != []
    ensures Ranks(ps[1..], all - {ps[0]})
  {
    BeforeTotal(ps[0], ps[0]);
    forall p | p in ps && p != ps[0] ensures p in ps[1..] {
      var i :| 0 <= i < |ps| && ps[i] == p;
      assert ps[1..][i - 1] == p;
    }
  }

  method InsertRanked(ps: seq<Peer>, p: Peer) returns (out: seq<Peer>)
    requires Ranked(ps)
    requires forall q :: q in ps ==> q.id != p.id
    ensures Ranked(out) && forall q :: q in out <==> q == p || q in ps
  {
    var i := 0;
    while i < |ps| && Before(ps[i], p)
      invariant 0 <= i <= |ps|
      invariant forall k :: 0 <= k < i ==> Before(ps[k], p)
    {
      i := i + 1;
    }
    forall k | i <= k < |ps| ensures Before(p, ps[k]) {
      BeforeTotal(p, ps[i]);
      if k > i {
        BeforeTransitive(p, ps[i], ps[k]);
      }
    }
    assert ps == ps[..i] + ps[i..];
    out := ps[..i] + [p] + ps[i..];
  }

  /** Stands for sort.Slice on a list of distinct peers. */
  method SortPeers(ps: seq<Peer>, ghost all: set<Peer>) returns (out: seq<Peer>)
    requires forall i, k :: 0 <= i < k < |ps| ==> ps[i].id != ps[k].id
    requires forall p :: p in ps <==> p in all
    ensures Ranks(out, all)
  {
    out := [];
    for i := 0 to |ps|
      invariant Ranked(out) && forall p :: p in out <==> p in ps[..i]
    {
      assert ps[..i + 1] == ps[..i] + [ps[i]];
      out := InsertRanked(out, ps[i]);
    }
    assert ps[..|ps|] == ps;
  }

  // ----- What is saved and what comes back -----

  /** Every peer is filed under its own ID. */
  ghost predicate Keyed(m: Memory) {
    forall id :: id in m ==> m[id].id == id
  }

  predicate Recent(p: Peer, now: int) {
    p.lastSeen >= now - MEMORY_TTL
  }

  function Recents(m: Memory, now: int): set<Peer> {
    set id | id in m && Recent(m[id], now) :: m[id]
  }

  /** `file` is the ranked list of the 64 foremost peers of `all`, or of all of them if there are no more. */
  ghost predicate Foremost(file: seq<Peer>, all: set<Peer>) {
    && Ranked(file) && |file| <= MAX_PEERS
    && (forall p :: p in file ==> p in all)
    && (forall p :: p in all && p !in file ==> |file| == MAX_PEERS && forall q :: q in file ==> Before(q, p))
  }

  lemma TakeIsForemost(ps: seq<Peer>, all: set<Peer>)
    requires Ranks(ps, all)
    ensures Foremost(Take(ps, MAX_PEERS), all)
  {
  }

  /** The saved list is determined: it is the start of the ranking. */
  lemma ForemostIsTake(file: seq<Peer>, ps: seq<Peer>, all: set<Peer>)
    requires Foremost(file, all) && Ranks(ps, all)
    ensures file == Take(ps, MAX_PEERS)
  {
    if exists p :: p in all && p !in file {
      ForemostPrefix(file, ps, all);
    } else {
      assert Ranks(file, all);
      RankingUnique(file, ps, all);
    }
  }

  lemma PrefixCons(ps: seq<Peer>, n: nat)
    requires 0 < n <= |ps|
    ensures ps[..n] == [ps[0]] + ps[1..][..n - 1]
  {
  }

  lemma {:induction false} ForemostPrefix(file: seq<Peer>, ps: seq<Peer>, all: set<Peer>)
    requires Ranked(file) && Ranks(ps, all)
    requires forall p :: p in file ==> p in all
    requires forall p, q :: p in all && p !in file && q in file ==> Before(q, p)
    ensures |file| <= |ps| && file == ps[..|file|]
  {
    if file != [] {
      assert file[0] in all;
      assert file[0] in ps && ps[0] in all;
      BeforeTotal(ps[0], file[0]);
      assert ps[0] == file[0];
      RankTail(ps, all);
      BeforeTotal(file[0], file[0]);
      assert file == [file[0]] + file[1..];
      ForemostPrefix(file[1..], ps[1..], all - {ps[0]});
      PrefixCons(ps, |file|);
    }
  }

  predicate Loadable(p: Peer, now: int, decodes: string -> bool) {
    decodes(p.id) && Recent(p, now) && p.addrs != []
  }

  function Loaded(file: seq<Peer>, now: int, decodes: string -> bool): Memory {
    if file == [] then map[]
    else
      var m, p := Loaded(file[..|file| - 1], now, decodes), file[|file| - 1];
      if Loadable(p, now, decodes) then m[p.id := p] else m
  }

  lemma {:induction false} LoadedAll(file: seq<Peer>, now: int, decodes: string -> bool)
    requires forall i, k :: 0 <= i < k < |file| ==> file[i].id != file[k].id
    requires forall p :: p in file ==> Loadable(p, now, decodes)
    ensures Keyed(Loaded(file, now, decodes))
    ensures forall p :: p in file ==> p.id in Loaded(file, now, decodes) && Loaded(file, now, decodes)[p.id] == p
    ensures forall id :: id in Loaded(file, now, decodes) ==> Loaded(file, now, decodes)[id] in file
  {
    if file != [] {
      LoadedAll(file[..|file| - 1], now, decodes);
    }
  }

  // ----- Dialling -----

  datatype AddrInfo = AddrInfo(id: string, addrs: seq<string>)

  function Parsing(addrs: seq<string>, parses: string -> bool): seq<string> {
    if addrs == [] then []
    else Parsing(addrs[..|addrs| - 1], parses) + if parses(addrs[|addrs| - 1]) then [addrs[|addrs| - 1]] else []
  }

  /** An address of the peer parses, so there is something to dial. */
  predicate Dials(p: Peer, decodes: string -> bool, parses: string -> bool) {
    decodes(p.id) && Parsing(p.addrs, parses) != []
  }

  function Target(p: Peer, decodes: string -> bool, parses: string -> bool): seq<AddrInfo> {
    if Dials(p, decodes, parses) then [AddrInfo(p.id, Parsing(p.addrs, parses))] else []
  }

  /** The ranked peers that have an address to dial. */
  function Dialable(ps: seq<Peer>, decodes: string -> bool, parses: string -> bool): seq<AddrInfo> {
    if ps == [] then [] else Dialable(ps[..|ps| - 1], decodes, parses) + Target(ps[|ps| - 1], decodes, parses)
  }

  /** The peers DialTargets considers. */
  function Candidates(m: Memory, self: string, now: int): set<Peer> {
    set id | id in m && id != self && Recent(m[id], now) :: m[id]
  }

  /** Every remembered peer is another one, with an ID that decodes and an address. */
  ghost predicate Recallable(m: Memory, self: string, decodes: string -> bool) {
    Keyed(m) && self !in m && forall id :: id in m ==> decodes(id) && m[id].addrs != []
  }

  /** The addresses of a target are the peer's that parse, in order. */
  lemma {:induction false} ParsingJoin(a: seq<string>, b: seq<string>, parses: string -> bool)
    ensures Parsing(a + b, parses) == Parsing(a, parses) + Parsing(b, parses)
    ensures forall x :: x in Parsing(b, parses) <==> x in b && parses(x)
  {
    if b == [] {
      assert a + b == a;
    } else {
      ParsingJoin(a, b[..|b| - 1], parses);
      assert (a + b)[..|a + b| - 1] == a + b[..|b| - 1];
    }
  }

  /** `info` offers `p` under its own ID, which decodes, with all of its addresses that parse, of which there is one. */
  ghost predicate Offers(p: Peer, decodes: string -> bool, parses: string -> bool, info: AddrInfo) {
    info.id == p.id && decodes(p.id) && info.addrs == Parsing(p.addrs, parses) && exists a :: a in p.addrs && parses(a)
  }

  lemma TargetOffers(p: Peer, decodes: string -> bool, parses: string -> bool, info: AddrInfo)
    ensures info in Target(p, decodes, parses) <==> Offers(p, decodes, parses, info)
  {
    ParsingJoin([], p.addrs, parses);
    var some := Parsing(p.addrs, parses);
    assert some != [] ==> some[0] in p.addrs && parses(some[0]);
  }

  /** Dialling offers exactly the listed peers that can be offered. */
  lemma {:induction false} DialableMeans(ps: seq<Peer>, decodes: string -> bool, parses: string -> bool, info: AddrInfo)
    ensures info in Dialable(ps, decodes, parses) <==> exists i :: 0 <= i < |ps| && Offers(ps[i], decodes, parses, info)
  {
    if ps != [] {
      var init, p := ps[..|ps| - 1], ps[|ps| - 1];
      DialableMeans(init, decodes, parses, info);
      TargetOffers(p, decodes, parses, info);
      if i :| 0 <= i < |init| && Offers(init[i], decodes, parses, info) {
        assert Offers(ps[i], decodes, parses, info);
      }
      if i :| 0 <= i < |ps| && Offers(ps[i], decodes, parses, info) {
        assert i < |init| ==> Offers(init[i], decodes, parses, info);
      }
    }
  }

  ghost predicate AllDial(ps: seq<Peer>, decodes: string -> bool, parses: string -> bool) {
    forall i :: 0 <= i < |ps| ==> Dials(ps[i], decodes, parses)
  }

  ghost predicate NoneDials(ps: seq<Peer>, decodes: string -> bool, parses: string -> bool) {
    forall i :: 0 <= i < |ps| ==> !Dials(ps[i], decodes, parses)
  }

  /** What Take leaves. */
  function Beyond<T>(xs: seq<T>, n: nat): seq<T> {
    if |xs| <= n then [] else xs[n..]
  }

  lemma DialableSnoc(ps: seq<Peer>, p: Peer, decodes: string -> bool, parses: string -> bool)
    ensures Dialable(ps + [p], decodes, parses) == Dialable(ps, decodes, parses) + Target(p, decodes, parses)
  {
    assert (ps + [p])[..|ps|] == ps;
  }

  lemma JoinAssociates(a: seq<AddrInfo>, b: seq<AddrInfo>, c: seq<AddrInfo>)
    ensures a + (b + c) == (a + b) + c
  {
  }

  lemma {:induction false} DialableJoin(a: seq<Peer>, b: seq<Peer>, decodes: string -> bool, parses: string -> bool)
    ensures Dialable(a + b, decodes, parses) == Dialable(a, decodes, parses) + Dialable(b, decodes, parses)
  {
    if b == [] {
      assert a + b == a;
    } else {
      var init, p := b[..|b| - 1], b[|b| - 1];
      assert a + b == (a + init) + [p] && b == init + [p];
      DialableJoin(a, init, decodes, parses);
      DialableSnoc(a + init, p, decodes, parses);
      DialableSnoc(init, p, decodes, parses);
      JoinAssociates(Dialable(a, decodes, parses), Dialable(init, decodes, parses), Target(p, decodes, parses));
    }
  }

  /** Dialling drops exactly the peers without an address that parses. */
  lemma {:induction false} DialableLength(ps: seq<Peer>, decodes: string -> bool, parses: string -> bool)
    ensures |Dialable(ps, decodes, parses)| <= |ps|
    ensures |Dialable(ps, decodes, parses)| == |ps| <==> AllDial(ps, decodes, parses)
    ensures |Dialable(ps, decodes, parses)| == 0 <==> NoneDials(ps, decodes, parses)
  {
    if ps != [] {
      var init, p := ps[..|ps| - 1], ps[|ps| - 1];
      DialableLength(init, decodes, parses);
      assert ps == init + [p];
      assert AllDial(ps, decodes, parses) <==> AllDial(init, decodes, parses) && Dials(p, decodes, parses);
      assert NoneDials(ps, decodes, parses) <==> NoneDials(init, decodes, parses) && !Dials(p, decodes, parses);
    }
  }

  /** Reloading the saved file recalls exactly the saved peers, so they are ranked as before. */
  lemma {:induction false} ReloadRanking(m: Memory, self: string, now: int, decodes: string -> bool,
                      before: seq<Peer>, file: seq<Peer>, after: seq<Peer>)
    requires Recallable(m, self, decodes)
    requires Ranks(before, Candidates(m, self, now)) && Foremost(file, Recents(m, now))
    requires Ranks(after, Candidates(Loaded(file, now, decodes), self, now))
    ensures after == Take(before, MAX_PEERS)
  {
    assert Candidates(m, self, now) == Recents(m, now);
    ForemostIsTake(file, before, Recents(m, now));
    forall i, k | 0 <= i < k < |file| ensures file[i].id != file[k].id {
      assert file[i] in Recents(m, now) && file[k] in Recents(m, now);
      BeforeTotal(file[i], file[k]);
    }
    LoadedAll(file, now, decodes);
    assert Ranks(file, Candidates(Loaded(file, now, decodes), self, now));
    RankingUnique(after, file, Candidates(Loaded(file, now, decodes), self, now));
  }

  /** Save, restart, dial: exactly what can be dialled of the first 64 peers there were. */
  lemma {:induction false} DialAfterReload(m: Memory, self: string, now: int, decodes: string -> bool, parses: string -> bool,
                        before: seq<Peer>, file: seq<Peer>, after: seq<Peer>)
    requires Recallable(m, self, decodes)
    requires Ranks(before, Candidates(m, self, now)) && Foremost(file, Recents(m, now))
    requires Ranks(after, Candidates(Loaded(file, now, decodes), self, now))
    ensures Dialable(after, decodes, parses) == Dialable(Take(before, MAX_PEERS), decodes, parses)
    ensures Dialable(after, decodes, parses) == Take(Dialable(before, decodes, parses), MAX_PEERS) <==>
      AllDial(Take(before, MAX_PEERS), decodes, parses) || NoneDials(Beyond(before, MAX_PEERS), decodes, parses)
  {
    ReloadRanking(m, self, now, decodes, before, file, after);
    DialFirst(before, decodes, parses);
  }

  /** The first 64 dial targets are those of the first 64 peers exactly when all of these, or none of the others, can be dialled. */
  lemma {:induction false} DialFirst(ps: seq<Peer>, decodes: string -> bool, parses: string -> bool)
    ensures Dialable(Take(ps, MAX_PEERS), decodes, parses) == Take(Dialable(ps, decodes, parses), MAX_PEERS) <==>
      AllDial(Take(ps, MAX_PEERS), decodes, parses) || NoneDials(Beyond(ps, MAX_PEERS), decodes, parses)
  {
    var a, b := Take(ps, MAX_PEERS), Beyond(ps, MAX_PEERS);
    assert ps == a + b;
    DialableJoin(a, b, decodes, parses);
    DialableLength(a, decodes, parses);
    DialableLength(b, decodes, parses);
    TakeJoin(Dialable(a, decodes, parses), Dialable(b, decodes, parses));
  }

  lemma TakeJoin(x: seq<AddrInfo>, y: seq<AddrInfo>)
    requires |x| <= MAX_PEERS
    ensures x == Take(x + y, MAX_PEERS) <==> |x| == MAX_PEERS || y == []
  {
    assert |x| == MAX_PEERS ==> (x + y)[..MAX_PEERS] == x;
    assert x + [] == x;
  }

  // ----- A file with an address that does not parse -----

  lemma ParsingOne(a: string, parses: string -> bool)
    ensures Parsing([a], parses) == if parses(a) then [a] else []
  {
    assert [a][..0] == [];
  }

  /** The i-th of 65 peers, the most recent of which has no address that parses. */
  function Odd(i: nat): Peer {
    Peer(seq(i, _ => 'a'), [if i == 0 then "" else "/ip4/10.0.0.1"], MAX_PEERS - i)
  }

  function Odds(): seq<Peer> {
    seq(MAX_PEERS + 1, i requires 0 <= i => Odd(i))
  }

  lemma OddMemory(decodes: string -> bool)
    requires forall id :: decodes(id)
    ensures Recallable(Loaded(Odds(), 0, decodes), "self", decodes)
    ensures Ranks(Odds(), Candidates(Loaded(Odds(), 0, decodes), "self", 0))
  {
    forall i | 0 <= i < |Odds()| ensures Odds()[i].lastSeen == MAX_PEERS - i && |Odds()[i].id| == i && Odds()[i].id != "self" {
      assert i > 0 ==> Odds()[i].id[0] == 'a';
    }
    LoadedAll(Odds(), 0, decodes);
  }

  lemma OddTargets(decodes: string -> bool, parses: string -> bool)
    requires (forall id :: decodes(id)) && forall a :: parses(a) <==> a != ""
    ensures |Dialable(Odds(), decodes, parses)| == MAX_PEERS
    ensures |Dialable(Take(Odds(), MAX_PEERS), decodes, parses)| == MAX_PEERS - 1
  {
    var before := Odds();
    forall i: nat | i <= MAX_PEERS ensures Dials(before[i], decodes, parses) <==> i != 0 {
      ParsingOne(before[i].addrs[0], parses);
      assert before[i].addrs == [before[i].addrs[0]];
    }
    var head, rest, some := before[..1], before[1..], before[1..MAX_PEERS];
    assert before == head + rest && before[..MAX_PEERS] == head + some;
    DialableJoin(head, rest, decodes, parses);
    DialableJoin(head, some, decodes, parses);
    DialableLength(head, decodes, parses);
    DialableLength(rest, decodes, parses);
    DialableLength(some, decodes, parses);
  }

  /** A memory loaded from a hand-edited file of 65 peers: saving it loses a peer that could be dialled. */
  lemma {:induction false} UnparsableCostsATarget(decodes: string -> bool, parses: string -> bool, file: seq<Peer>, after: seq<Peer>)
    requires (forall id :: decodes(id)) && forall a :: parses(a) <==> a != ""
    requires Foremost(file, Recents(Loaded(Odds(), 0, decodes), 0))
    requires Ranks(after, Candidates(Loaded(file, 0, decodes), "self", 0))
    ensures Ranks(Odds(), Candidates(Loaded(Odds(), 0, decodes), "self", 0))
    ensures |Dialable(Odds(), decodes, parses)| == MAX_PEERS && |Dialable(after, decodes, parses)| == MAX_PEERS - 1
  {
    OddMemory(decodes);
    OddTargets(decodes, parses);
    DialAfterReload(Loaded(Odds(), 0, decodes), "self", 0, decodes, parses, Odds(), file, after);
  }

  // ----- Memories over the life of a node -----

  /** Recallable, and each address parses. */
  ghost predicate Genuine(m: Memory, self: string, decodes: string -> bool, parses: string -> bool) {
    Recallable(m, self, decodes) && forall id, a :: id in m && a in m[id].addrs ==> parses(a)
  }

  /** Whatever of the file can be loaded is another peer whose addresses parse. */
  ghost predicate GenuineFile(file: seq<Peer>, self: string, parses: string -> bool) {
    forall p :: p in file ==> p.id != self && forall a :: a in p.addrs ==> parses(a)
  }

  ghost predicate GenuineConns(conns: seq<Conn>, decodes: string -> bool, parses: string -> bool) {
    forall i :: 0 <= i < |conns| ==> decodes(conns[i].peer) && (conns[i].addr.Some? ==> parses(conns[i].addr.value))
  }

  lemma {:induction false} WithoutFrom(xs: seq<string>, x: string)
    ensures forall a :: a in Without(xs, x) ==> a in xs
  {
    if xs != [] {
      WithoutFrom(xs[..|xs| - 1], x);
    }
  }

  lemma MergedFrom(x: string, addrs: seq<string>)
    ensures Merged(x, addrs) != [] && forall a :: a in Merged(x, addrs) ==> a == x || a in addrs
  {
    WithoutFrom(addrs, x);
  }

  lemma {:induction false} ObservedGenuine(m: Memory, self: string, conns: seq<Conn>, now: int, decodes: string -> bool, parses: string -> bool)
    requires Genuine(m, self, decodes, parses) && GenuineConns(conns, decodes, parses)
    ensures Genuine(Observed(m, self, conns, now), self, decodes, parses)
  {
    if conns != [] {
      var c := conns[|conns| - 1];
      ObservedGenuine(m, self, conns[..|conns| - 1], now, decodes, parses);
      if c.addr.Some? {
        MergedFrom(c.addr.value, AddrsOf(Observed(m, self, conns[..|conns| - 1], now), c.peer));
      }
    }
  }

  lemma {:induction false} LoadedGenuine(file: seq<Peer>, now: int, self: string, decodes: string -> bool, parses: string -> bool)
    requires GenuineFile(file, self, parses)
    ensures Genuine(Loaded(file, now, decodes), self, decodes, parses)
  {
    if file != [] {
      LoadedGenuine(file[..|file| - 1], now, self, decodes, parses);
    }
  }

  /** What happens to a memory: snapshots, saves and restarts. */
  datatype Life = Observe(conns: seq<Conn>, now: int) | SaveAt(now: int) | Reload(now: int)

  datatype Desk = Desk(mem: Memory, dirty: bool, file: seq<Peer>)

  /** One event, as the methods of PeerMemory specify it. */
  ghost predicate Lives(x: Desk, e: Life, x': Desk, self: string, decodes: string -> bool) {
    match e
    case Observe(conns, now) => x'.mem == Observed(x.mem, self, conns, now) && x'.file == x.file
    case SaveAt(now) =>
      if x.dirty then Foremost(x'.file, Recents(x.mem, now)) && x'.mem == map id | id in x.mem && Recent(x.mem[id], now) :: x.mem[id]
      else x' == x
    case Reload(now) => x'.mem == Loaded(x.file, now, decodes) && x'.file == x.file
  }

  lemma {:induction false} LifeStaysGenuine(xs: seq<Desk>, es: seq<Life>, self: string, decodes: string -> bool, parses: string -> bool)
    requires |xs| == |es| + 1 && forall i :: 0 <= i < |es| ==> Lives(xs[i], es[i], xs[i + 1], self, decodes)
    requires forall i :: 0 <= i < |es| && es[i].Observe? ==> GenuineConns(es[i].conns, decodes, parses)
    requires Genuine(xs[0].mem, self, decodes, parses) && GenuineFile(xs[0].file, self, parses)
    ensures Genuine(xs[|es|].mem, self, decodes, parses) && GenuineFile(xs[|es|].file, self, parses)
  {
    if es != [] {
      var k := |es| - 1;
      LifeStaysGenuine(xs[..k + 1], es[..k], self, decodes, parses);
      assert Lives(xs[k], es[k], xs[k + 1], self, decodes);
      match es[k]
      case Observe(conns, now) => ObservedGenuine(xs[k].mem, self, conns, now, decodes, parses);
      case SaveAt(now) =>
      case Reload(now) => LoadedGenuine(xs[k].file, now, self, decodes, parses);
    }
  }

  /** When a peer was last sighted: by the last snapshot that did, or before the first event. */
  ghost function Dated(m: Memory, es: seq<Life>, self: string, id: string): Option<int> {
    if es == [] then if id in m then Some(m[id].lastSeen) else None
    else
      var e := es[|es| - 1];
      if e.Observe? && Sighted(e.conns, self, id) then Some(e.now) else Dated(m, es[..|es| - 1], self, id)
  }

  /** No restart, and the clock does not go back. */
  ghost predicate Awake(es: seq<Life>, now: int) {
    && (forall i :: 0 <= i < |es| ==> !es[i].Reload? && es[i].now <= now)
    && forall i, k :: 0 <= i < k < |es| ==> es[i].now <= es[k].now
  }

  lemma {:induction false} DatesKept(xs: seq<Desk>, es: seq<Life>, self: string, decodes: string -> bool, now: int, id: string)
    requires |xs| == |es| + 1 && (forall i :: 0 <= i < |es| ==> Lives(xs[i], es[i], xs[i + 1], self, decodes))
    requires Awake(es, now) && Keyed(xs[0].mem)
    ensures var m, date := xs[|es|].mem, Dated(xs[0].mem, es, self, id);
      && (id in m ==> m[id].id == id && date == Some(m[id].lastSeen))
      && (date.Some? && date.value >= now - 30 * 24 * 3600 ==> id in m)
  {
    if es != [] {
      var k := |es| - 1;
      DatesKept(xs[..k + 1], es[..k], self, decodes, now, id);
      assert Lives(xs[k], es[k], xs[k + 1], self, decodes);
      if es[k].Observe? {
        ObservedDates(xs[k].mem, self, es[k].conns, es[k].now, id);
      }
    }
  }

  /**
    While a node is up, the peers it would dial are exactly those it sighted, or loaded as seen, at most 30
    days ago; and a save puts each of them in the file unless 64 others come before it.
   */
  lemma {:induction false} RecentPeersAreKept(xs: seq<Desk>, es: seq<Life>, self: string, decodes: string -> bool, now: int, id: string,
                                              file: seq<Peer>)
    requires |xs| == |es| + 1 && (forall i :: 0 <= i < |es| ==> Lives(xs[i], es[i], xs[i + 1], self, decodes))
    requires Awake(es, now) && Keyed(xs[0].mem) && Foremost(file, Recents(xs[|es|].mem, now))
    ensures var m, date := xs[|es|].mem, Dated(xs[0].mem, es, self, id);
      && (id in m && m[id] in Candidates(m, self, now) <==> id != self && date.Some? && date.value >= now - 30 * 24 * 3600)
      && (date.Some? && date.value >= now - 30 * 24 * 3600 ==>
        id in m && m[id].lastSeen == date.value && (m[id] in file || (|file| == 64 && forall q :: q in file ==> Before(q, m[id]))))
  {
    DatesKept(xs, es, self, decodes, now, id);
    var m := xs[|es|].mem;
    if id in m && m[id] in Candidates(m, self, now) {
      var k :| k in m && k != self && Recent(m[k], now) && m[k] == m[id];
      DatesKept(xs, es, self, decodes, now, k);
    }
    if id in m && Recent(m[id], now) {
      assert m[id] in Recents(m, now);
    }
  }

  /**
    What DialAfterReload asks holds of every memory the code comes to, through any snapshots, saves and
    restarts, whatever other peers and addresses the first file named.
   */
  lemma {:induction false} EveryMemoryRecallable(file: seq<Peer>, now: int, xs: seq<Desk>, es: seq<Life>, self: string, decodes: string -> bool)
    requires |xs| == |es| + 1 && forall i :: 0 <= i < |es| ==> Lives(xs[i], es[i], xs[i + 1], self, decodes)
    requires forall i, k :: 0 <= i < |es| && es[i].Observe? && 0 <= k < |es[i].conns| ==> decodes(es[i].conns[k].peer)
    requires xs[0].mem == Loaded(file, now, decodes) && xs[0].file == file && forall p :: p in file ==> p.id != self
    ensures Recallable(xs[|es|].mem, self, decodes)
  {
    LoadedGenuine(file, now, self, decodes, _ => true);
    LifeStaysGenuine(xs, es, self, decodes, _ => true);
  }

  lemma {:induction false} ParsingAll(addrs: seq<string>, parses: string -> bool)
    requires forall a :: a in addrs ==> parses(a)
    ensures Parsing(addrs, parses) == addrs
  {
    if addrs != [] {
      ParsingAll(addrs[..|addrs| - 1], parses);
    }
  }

  /** A node that started without a file dials, after any life and one more save and restart, exactly the first 64 targets it had. */
  lemma {:induction false} OwnFileDialsFirst(xs: seq<Desk>, es: seq<Life>, self: string, now: int, decodes: string -> bool, parses: string -> bool,
                        before: seq<Peer>, file: seq<Peer>, after: seq<Peer>)
    requires |xs| == |es| + 1 && forall i :: 0 <= i < |es| ==> Lives(xs[i], es[i], xs[i + 1], self, decodes)
    requires forall i :: 0 <= i < |es| && es[i].Observe? ==> GenuineConns(es[i].conns, decodes, parses)
    requires xs[0].mem == map[] && xs[0].file == []
    requires Ranks(before, Candidates(xs[|es|].mem, self, now)) && Foremost(file, Recents(xs[|es|].mem, now))
    requires Ranks(after, Candidates(Loaded(file, now, decodes), self, now))
    ensures Dialable(after, decodes, parses) == Take(Dialable(before, decodes, parses), MAX_PEERS)
  {
    LifeStaysGenuine(xs, es, self, decodes, parses);
    DialAfterReload(xs[|es|].mem, self, now, decodes, parses, before, file, after);
    forall i | 0 <= i < |before| ensures Dials(before[i], decodes, parses) {
      assert before[i] in Candidates(xs[|es|].mem, self, now);
      ParsingAll(before[i].addrs, parses);
    }
  }

  lemma {:induction false} LoadedMeans(file: seq<Peer>, now: int, decodes: string -> bool)
    ensures var m := Loaded(file, now, decodes);
      && (forall id :: id in m ==> m[id] in file && decodes(id) && m[id].addrs != [] && m[id].lastSeen >= now - 30 * 24 * 3600)
      && (forall p :: p in file && decodes(p.id) && p.addrs != [] && p.lastSeen >= now - 30 * 24 * 3600 ==> p.id in m)
  {
    if file != [] {
      LoadedMeans(file[..|file| - 1], now, decodes);
    }
  }

  lemma {:induction false} LoadedKeyed(file: seq<Peer>, now: int, decodes: string -> bool)
    ensures Keyed(Loaded(file, now, decodes))
  {
    if file != [] {
      LoadedKeyed(file[..|file| - 1], now, decodes);
    }
  }

  lemma {:induction false} ObservedKeyed(m: Memory, self: string, conns: seq<Conn>, now: int)
    requires Keyed(m)
    ensures Keyed(Observed(m, self, conns, now))
  {
    if conns != [] {
      ObservedKeyed(m, self, conns[..|conns| - 1], now);
    }
  }

  class PeerMemory {
    var peers: Memory
    var dirty: bool
    var file: seq<Peer>

    constructor Load(file: seq<Peer>, now: int, decodes: string -> bool)
      ensures Keyed(peers) && peers == Loaded(file, now, decodes) && !dirty && this.file == file
      ensures forall id :: id in peers ==> peers[id] in file && decodes(id) && peers[id].addrs != [] && peers[id].lastSeen >= now - 30 * 24 * 3600
      ensures forall p :: p in file && decodes(p.id) && p.addrs != [] && p.lastSeen >= now - 30 * 24 * 3600 ==> p.id in peers
    {
      this.file := file;
      dirty := false;
      peers := map[];
      new;
      for i := 0 to |file|
        invariant peers == Loaded(file[..i], now, decodes) && !dirty && this.file == file
      {
        assert file[..i + 1][..i] == file[..i];
        var p := file[i];
        if !decodes(p.id) || p.lastSeen < now - MEMORY_TTL || |p.addrs| == 0 {
          continue;
        }
        peers := peers[p.id := p];
      }
      assert file[..|file|] == file;
      LoadedKeyed(file, now, decodes);
      LoadedMeans(file, now, decodes);
    }

    method Snapshot(self: string, conns: seq<Conn>, now: int)
      requires Keyed(peers)
      modifies this`peers, this`dirty
      ensures Keyed(peers) && peers == Observed(old(peers), self, conns, now)
      ensures forall id :: Sighted(conns, self, id) ==> id in peers && peers[id].lastSeen == now
      ensures forall id :: !Sighted(conns, self, id) ==> (id in peers <==> id in old(peers)) && (id in peers ==> peers[id] == old(peers)[id])
      ensures dirty <==> old(dirty) || exists i :: 0 <= i < |conns| && Counts(conns[i], self)
    {
      for i := 0 to |conns|
        invariant peers == Observed(old(peers), self, conns[..i], now)
        invariant dirty <==> old(dirty) || exists k :: 0 <= k < i && Counts(conns[k], self)
      {
        assert conns[..i + 1][..i] == conns[..i];
        var c := conns[i];
        if c.peer == self || c.addr.None? || IsCircuit(c.addr.value) {
          continue;
        }
        var merged := MergeAddrs(c.addr.value, if c.peer in peers then peers[c.peer].addrs else []);
        peers := peers[c.peer := Peer(c.peer, merged, now)];
        dirty := true;
      }
      assert conns[..|conns|] == conns;
      ObservedKeyed(old(peers), self, conns, now);
      forall id ensures if Sighted(conns, self, id) then id in peers && peers[id].lastSeen == now
        else (id in peers <==> id in old(peers)) && (id in peers ==> peers[id] == old(peers)[id])
      {
        ObservedDates(old(peers), self, conns, now, id);
      }
    }

    /** Collects the peers for which `keep` holds; map order is arbitrary. */
    method Collect(keep: Peer -> bool, ghost all: set<Peer>) returns (out: seq<Peer>)
      requires Keyed(peers) && all == set id | id in peers && keep(peers[id]) :: peers[id]
      ensures forall i, k :: 0 <= i < k < |out| ==> out[i].id != out[k].id
      ensures forall p :: p in out <==> p in all
    {
      out := [];
      var todo := peers.Keys;
      while todo != {}
        invariant todo <= peers.Keys
        invariant forall i, k :: 0 <= i < k < |out| ==> out[i].id != out[k].id
        invariant forall p :: p in out <==> p.id in peers && p.id !in todo && peers[p.id] == p && keep(p)
      {
        var id :| id in todo;
        if keep(peers[id]) {
          out := out + [peers[id]];
        }
        todo := todo - {id};
      }
    }

    /** Writes the foremost recent peers if anything changed, and forgets the expired ones. */
    method Save(now: int)
      requires Keyed(peers)
      modifies this
      ensures Keyed(peers)
      ensures !old(dirty) ==> peers == old(peers) && file == old(file) && !dirty
      ensures old(dirty) ==>
        && Foremost(file, Recents(old(peers), now)) && !dirty
        && peers == (map id | id in old(peers) && Recent(old(peers)[id], now) :: old(peers)[id])
        && (forall id :: id in peers <==> id in old(peers) && old(peers)[id].lastSeen >= now - 30 * 24 * 3600)
        && |file| <= 64
    {
      if !dirty {
        return;
      }
      ghost var all := Recents(peers, now);
      var list := Collect((p: Peer) => Recent(p, now), all);
      peers := map id | id in peers && Recent(peers[id], now) :: peers[id];
      list := SortPeers(list, all);
      TakeIsForemost(list, all);
      if |list| > MAX_PEERS {
        list := list[..MAX_PEERS];
      }
      file := list;
      dirty := false;
    }

    /** The peers to dial, most recent first: what is dialable of the one ranking of the candidates. */
    method DialTargets(self: string, now: int, decodes: string -> bool, parses: string -> bool) returns (out: seq<AddrInfo>)
      requires Keyed(peers)
      ensures exists ranking :: Ranks(ranking, Candidates(peers, self, now)) && out == Dialable(ranking, decodes, parses)
    {
      var list := Collect((p: Peer) => p.id != self && Recent(p, now), Candidates(peers, self, now));
      list := SortPeers(list, Candidates(peers, self, now));
      out := [];
      for i := 0 to |list|
        invariant out == Dialable(list[..i], decodes, parses)
      {
        assert list[..i + 1][..i] == list[..i];
        if !decodes(list[i].id) {
          continue;
        }
        var addrs := [];
        for k := 0 to |list[i].addrs|
          invariant addrs == Parsing(list[i].addrs[..k], parses)
        {
          assert list[i].addrs[..k + 1][..k] == list[i].addrs[..k];
          if parses(list[i].addrs[k]) {
            addrs := addrs + [list[i].addrs[k]];
          }
        }
        assert list[i].addrs[..|list[i].addrs|] == list[i].addrs;
        if |addrs| > 0 {
          out := out + [AddrInfo(list[i].id, addrs)];
        }
      }
      assert list[..|list|] == list;
    }
  }
}
