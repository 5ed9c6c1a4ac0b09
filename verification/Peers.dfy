/** Remembered peers: a truncated move-to-front address list per peer, and a ranked, capped file (internal/host/peers.go). */
module Peers {
  import opened Common

  const MAX_PEERS: nat := 64
  const MAX_ADDRS: nat := 8
  /** In seconds, like LastSeen. */
  const MEMORY_TTL: int := 30 * 24 * 3600

  /** `id` is the canonical text of the peer ID. */
  datatype Peer = Peer(id: string, addrs: seq<string>, lastSeen: int)
  type Memory = map<string, Peer>

  function Take<T>(xs: seq<T>, n: nat): seq<T> {
    if |xs| <= n then xs else xs[..n]
  }

  // ----- Address lists -----

  function Without(xs: seq<string>, x: string): seq<string> {
    if xs == [] then []
    else Without(xs[..|xs| - 1], x) + if xs[|xs| - 1] == x then [] else [xs[|xs| - 1]]
  }

  function Merged(x: string, addrs: seq<string>): seq<string> {
    Take([x] + Without(addrs, x), MAX_ADDRS)
  }

  /** The address just used goes first; the others follow in order, as far as there is room. */
  method MergeAddrs(x: string, addrs: seq<string>) returns (merged: seq<string>)
    ensures merged == Merged(x, addrs)
  {
    merged := [x];
    for i := 0 to |addrs|
      invariant merged == Merged(x, addrs[..i])
    {
      assert addrs[..i + 1][..i] == addrs[..i];
      if addrs[i] != x && |merged| < MAX_ADDRS {
        merged := merged + [addrs[i]];
      }
    }
    assert addrs[..|addrs|] == addrs;
  }

  /** The elements of `xs` without repetition, each at its first occurrence. */
  function Firsts(xs: seq<string>): seq<string> {
    if xs == [] then []
    else
      var rest, x := xs[..|xs| - 1], xs[|xs| - 1];
      Firsts(rest) + if x in rest then [] else [x]
  }

  function Reversed(xs: seq<string>): seq<string> {
    if xs == [] then [] else [xs[|xs| - 1]] + Reversed(xs[..|xs| - 1])
  }

  ghost predicate NoDuplicates(xs: seq<string>) {
    forall i, k :: 0 <= i < k < |xs| ==> xs[i] != xs[k]
  }

  lemma {:induction false} FirstsDistinct(xs: seq<string>)
    ensures NoDuplicates(Firsts(xs))
    ensures forall x :: x in Firsts(xs) <==> x in xs
  {
    if xs != [] {
      FirstsDistinct(xs[..|xs| - 1]);
    }
  }

  lemma {:induction false} FirstsOfDistinct(xs: seq<string>)
    requires NoDuplicates(xs)
    ensures Firsts(xs) == xs
  {
    if xs != [] {
      var rest, x := xs[..|xs| - 1], xs[|xs| - 1];
      FirstsOfDistinct(rest);
      assert x !in rest;
      assert Firsts(xs) == rest + [x];
    }
  }

  lemma FirstsSnoc(xs: seq<string>, y: string)
    ensures Firsts(xs + [y]) == Firsts(xs) + if y in xs then [] else [y]
  {
    assert (xs + [y])[..|xs|] == xs;
  }

  lemma WithoutSnoc(xs: seq<string>, y: string, x: string)
    ensures Without(xs + [y], x) == Without(xs, x) + if y == x then [] else [y]
  {
    assert (xs + [y])[..|xs|] == xs;
  }

  lemma FirstsJoin(a: seq<string>, b: seq<string>, c: seq<string>)
    ensures (a + b) + c == a + (b + c)
  {
  }

  lemma {:induction false} FirstsCons(x: string, xs: seq<string>)
    ensures Firsts([x] + xs) == [x] + Without(Firsts(xs), x)
  {
    if xs == [] {
      assert [x] + xs == [x];
    } else {
      var rest, last := xs[..|xs| - 1], xs[|xs| - 1];
      FirstsCons(x, rest);
      var firsts := Firsts(rest);
      assert xs == rest + [last] && [x] + xs == ([x] + rest) + [last];
      FirstsSnoc([x] + rest, last);
      FirstsSnoc(rest, last);
      if last in rest {
        assert last in [x] + rest && Firsts(xs) == firsts;
      } else {
        WithoutSnoc(firsts, last, x);
        assert last in [x] + rest <==> last == x;
        assert Firsts(xs) == firsts + [last];
        FirstsJoin([x], Without(firsts, x), if last == x then [] else [last]);
      }
    }
  }

  lemma {:induction false} WithoutSplit(xs: seq<string>, ys: seq<string>, x: string)
    ensures Without(xs + ys, x) == Without(xs, x) + Without(ys, x)
  {
    if ys == [] {
      assert xs + ys == xs;
    } else {
      WithoutSplit(xs, ys[..|ys| - 1], x);
      assert (xs + ys)[..|xs + ys| - 1] == xs + ys[..|ys| - 1];
    }
  }

  lemma {:induction false} WithoutLength(xs: seq<string>, x: string)
    requires NoDuplicates(xs)
    ensures |Without(xs, x)| >= |xs| - 1
    ensures x !in xs ==> |Without(xs, x)| == |xs|
  {
    if xs != [] {
      WithoutLength(xs[..|xs| - 1], x);
    }
  }

  /** Truncating before or after moving an address to the front makes no difference. */
  lemma MergeTruncates(x: string, xs: seq<string>)
    requires NoDuplicates(xs)
    ensures Merged(x, Take(xs, MAX_ADDRS)) == Merged(x, xs)
  {
    if |xs| > MAX_ADDRS {
      assert xs == xs[..MAX_ADDRS] + xs[MAX_ADDRS..];
      WithoutSplit(xs[..MAX_ADDRS], xs[MAX_ADDRS..], x);
      WithoutLength(xs[..MAX_ADDRS], x);
    }
  }

  /** The list kept after observing `history`, oldest first, starting from `addrs`. */
  function Kept(addrs: seq<string>, history: seq<string>): seq<string> {
    if history == [] then addrs else Merged(history[|history| - 1], Kept(addrs, history[..|history| - 1]))
  }

  /**
    LRU stack inclusion: the kept list is the first eight distinct addresses of the history read
    backwards, with the list it started from as the oldest history.
   */
  lemma {:induction false} KeptIsLRU(addrs: seq<string>, history: seq<string>)
    requires NoDuplicates(addrs) && |addrs| <= MAX_ADDRS
    ensures Kept(addrs, history) == Take(Firsts(Reversed(history) + addrs), MAX_ADDRS)
  {
    if history == [] {
      assert Reversed(history) + addrs == addrs;
      FirstsOfDistinct(addrs);
    } else {
      var before, x := history[..|history| - 1], history[|history| - 1];
      KeptIsLRU(addrs, before);
      var older := Reversed(before) + addrs;
      assert Reversed(history) + addrs == [x] + older;
      FirstsCons(x, older);
      assert NoDuplicates(Firsts(older)) by {
        FirstsDistinct(older);
      }
      MergeTruncates(x, Firsts(older));
    }
  }

  // ----- Snapshots -----

  /** An open connection; the address can be missing. */
  datatype Conn = Conn(peer: string, addr: Option<string>)

  /** Whether `word` occurs in `text` (strings.Contains). */
  predicate Contains(text: string, word: string) {
    |word| <= |text| && (text[..|word|] == word || (text != [] && Contains(text[1..], word)))
  }

  predicate Parts(text: string, before: string, word: string, after: string) {
    text == before + word + after
  }

  lemma {:induction false} ContainsParts(text: string, word: string)
    requires Contains(text, word)
    ensures exists before, after :: Parts(text, before, word, after)
  {
    if text[..|word|] == word {
      assert Parts(text, [], word, text[|word|..]);
    } else {
      ContainsParts(text[1..], word);
      var before, after :| Parts(text[1..], before, word, after);
      assert Parts(text, [text[0]] + before, word, after);
    }
  }

  lemma {:induction false} PartsContain(text: string, before: string, word: string, after: string)
    requires Parts(text, before, word, after)
    ensures Contains(text, word)
  {
    if before == [] {
      assert text[..|word|] == word;
    } else {
      assert Parts(text[1..], before[1..], word, after);
      PartsContain(text[1..], before[1..], word, after);
    }
  }

  /** An address through another node. */
  predicate IsCircuit(addr: string) {
    Contains(addr, "p2p-circuit")
  }

  predicate Counts(c: Conn, self: string) {
    c.peer != self && c.addr.Some? && !IsCircuit(c.addr.value)
  }

  /** A connection to another peer, with an address that is not through a third. */
  ghost predicate Direct(c: Conn, self: string) {
    c.peer != self && c.addr.Some? && !exists before, after :: Parts(c.addr.value, before, "p2p-circuit", after)
  }

  lemma CountsIfDirect(c: Conn, self: string)
    ensures Counts(c, self) <==> Direct(c, self)
  {
    if c.addr.Some? && IsCircuit(c.addr.value) {
      ContainsParts(c.addr.value, "p2p-circuit");
    }
    if c.addr.Some? && !Direct(c, self) && c.peer != self {
      var before, after :| Parts(c.addr.value, before, "p2p-circuit", after);
      PartsContain(c.addr.value, before, "p2p-circuit", after);
    }
  }

  /** Some direct connection is to this peer. */
  ghost predicate Sighted(conns: seq<Conn>, self: string, id: string) {
    exists i :: 0 <= i < |conns| && conns[i].peer == id && Direct(conns[i], self)
  }

  function AddrsOf(m: Memory, id: string): seq<string> {
    if id in m then m[id].addrs else []
  }

  function Observed(m: Memory, self: string, conns: seq<Conn>, now: int): Memory {
    if conns == [] then m
    else
      var m', c := Observed(m, self, conns[..|conns| - 1], now), conns[|conns| - 1];
      if Counts(c, self) then m'[c.peer := Peer(c.peer, Merged(c.addr.value, AddrsOf(m', c.peer)), now)] else m'
  }

  /** The addresses at which a peer was seen. */
  function Sightings(conns: seq<Conn>, self: string, id: string): seq<string> {
    if conns == [] then []
    else
      var c := conns[|conns| - 1];
      Sightings(conns[..|conns| - 1], self, id) + if Counts(c, self) && c.peer == id then [c.addr.value] else []
  }

  lemma {:induction false} ObservedKeeps(m: Memory, self: string, conns: seq<Conn>, now: int, id: string)
    ensures AddrsOf(Observed(m, self, conns, now), id) == Kept(AddrsOf(m, id), Sightings(conns, self, id))
  {
    if conns != [] {
      var before := conns[..|conns| - 1];
      ObservedKeeps(m, self, before, now, id);
      var seen := Sightings(before, self, id);
      var c := conns[|conns| - 1];
      if Counts(c, self) && c.peer == id {
        assert (seen + [c.addr.value])[..|seen|] == seen;
      } else {
        assert Sightings(conns, self, id) == seen;
      }
    }
  }

  lemma SightedMore(conns: seq<Conn>, self: string, id: string)
    requires conns != []
    ensures Sighted(conns, self, id) <==>
      Sighted(conns[..|conns| - 1], self, id) || (conns[|conns| - 1].peer == id && Counts(conns[|conns| - 1], self))
  {
    var init, c := conns[..|conns| - 1], conns[|conns| - 1];
    CountsIfDirect(c, self);
    if Sighted(init, self, id) {
      var i :| 0 <= i < |init| && init[i].peer == id && Direct(init[i], self);
      assert conns[i].peer == id && Direct(conns[i], self);
    }
    if Sighted(conns, self, id) {
      var i :| 0 <= i < |conns| && conns[i].peer == id && Direct(conns[i], self);
      assert i < |init| ==> init[i].peer == id && Direct(init[i], self);
    }
  }

  /** A snapshot dates the peers it sights, and no other: those stay as they were. */
  lemma {:induction false} ObservedDates(m: Memory, self: string, conns: seq<Conn>, now: int, id: string)
    ensures var m' := Observed(m, self, conns, now);
      if Sighted(conns, self, id) then id in m' && m'[id].id == id && m'[id].lastSeen == now
      else (id in m' <==> id in m) && (id in m ==> m'[id] == m[id])
  {
    if conns != [] {
      ObservedDates(m, self, conns[..|conns| - 1], now, id);
      SightedMore(conns, self, id);
    }
  }

  /** A sequence of snapshots, each with its time. */
  function Snapshots(m: Memory, self: string, shots: seq<(seq<Conn>, int)>): Memory {
    if shots == [] then m
    else Observed(Snapshots(m, self, shots[..|shots| - 1]), self, shots[|shots| - 1].0, shots[|shots| - 1].1)
  }

  function History(shots: seq<(seq<Conn>, int)>, self: string, id: string): seq<string> {
    if shots == [] then [] else History(shots[..|shots| - 1], self, id) + Sightings(shots[|shots| - 1].0, self, id)
  }

  lemma {:induction false} KeptSplit(addrs: seq<string>, a: seq<string>, b: seq<string>)
    ensures Kept(addrs, a + b) == Kept(Kept(addrs, a), b)
  {
    if b == [] {
      assert a + b == a;
    } else {
      KeptSplit(addrs, a, b[..|b| - 1]);
      assert (a + b)[..|a + b| - 1] == a + b[..|b| - 1];
    }
  }

  lemma {:induction false} SnapshotsKeep(m: Memory, self: string, shots: seq<(seq<Conn>, int)>, id: string)
    ensures AddrsOf(Snapshots(m, self, shots), id) == Kept(AddrsOf(m, id), History(shots, self, id))
  {
    if shots != [] {
      var before := shots[..|shots| - 1];
      var (conns, now) := shots[|shots| - 1];
      SnapshotsKeep(m, self, before, id);
      ObservedKeeps(Snapshots(m, self, before), self, conns, now, id);
      KeptSplit(AddrsOf(m, id), History(before, self, id), Sightings(conns, self, id));
    }
  }

  /** Over any sequence of snapshots, a peer's list is the eight most recently used of its addresses. */
  lemma {:induction false} AddressesAreLRU(m: Memory, self: string, shots: seq<(seq<Conn>, int)>, id: string)
    requires NoDuplicates(AddrsOf(m, id)) && |AddrsOf(m, id)| <= MAX_ADDRS
    ensures AddrsOf(Snapshots(m, self, shots), id) ==
      Take(Firsts(Reversed(History(shots, self, id)) + AddrsOf(m, id)), 8)
    ensures NoDuplicates(AddrsOf(Snapshots(m, self, shots), id))
  {
    SnapshotsKeep(m, self, shots, id);
    KeptIsLRU(AddrsOf(m, id), History(shots, self, id));
    FirstsDistinct(Reversed(History(shots, self, id)) + AddrsOf(m, id));
  }
}
