/** The invite frame: version, address count, length-prefixed addresses, key, label (internal/network/invite.go). */
module Invite {
  import opened Common

  const VERSION: byte := 1
  const PSK_LEN: nat := 32
  const MAX_ADDRS: nat := 255
  const MAX_ADDR_LEN: nat := 0xFFFF

  /** Addresses in their binary form; `title` is the invite label. */
  datatype Invite = Invite(addrs: seq<Bytes>, psk: Bytes, title: Bytes)

  // ----- Encoding -----

  function Frame(addr: Bytes): Bytes
    requires |addr| <= MAX_ADDR_LEN
  {
    [(|addr| / 256) as byte, (|addr| % 256) as byte] + addr
  }

  predicate Fit(addrs: seq<Bytes>) {
    forall i :: 0 <= i < |addrs| ==> |addrs[i]| <= MAX_ADDR_LEN
  }

  function Frames(addrs: seq<Bytes>): Bytes
    requires Fit(addrs)
  {
    if addrs == [] then [] else Frame(addrs[0]) + Frames(addrs[1..])
  }

  function Encode(inv: Invite): Result<Bytes> {
    if |inv.psk| != PSK_LEN then Err("psk must be 32 bytes")
    else if |inv.addrs| == 0 then Err("invite requires at least one multiaddr")
    else if |inv.addrs| > MAX_ADDRS then Err("invite supports at most 255 multiaddrs")
    else if !Fit(inv.addrs) then Err("multiaddr too long to encode")
    else Ok([VERSION, |inv.addrs| as byte] + Frames(inv.addrs) + inv.psk + inv.title)
  }

  lemma JoinAssociates(a: Bytes, b: Bytes, c: Bytes)
    ensures a + (b + c) == (a + b) + c
  {
  }

  lemma {:induction false} FramesSnoc(addrs: seq<Bytes>, a: Bytes)
    requires Fit(addrs) && |a| <= MAX_ADDR_LEN
    ensures Fit(addrs + [a]) && Frames(addrs + [a]) == Frames(addrs) + Frame(a)
  {
    if addrs == [] {
      assert addrs + [a] == [a];
      assert Frames([a]) == Frame(a) + Frames([]);
    } else {
      FramesSnoc(addrs[1..], a);
      assert (addrs + [a])[1..] == addrs[1..] + [a];
      JoinAssociates(Frame(addrs[0]), Frames(addrs[1..]), Frame(a));
    }
  }

  /** Where the frame of address `i` starts. */
  function FrameAt(addrs: seq<Bytes>, i: nat): nat
    requires i <= |addrs|
  {
    if i == 0 then 2 else FrameAt(addrs, i - 1) + 2 + |addrs[i - 1]|
  }

  lemma {:induction false} FrameAtPrefix(addrs: seq<Bytes>, more: seq<Bytes>, i: nat)
    requires i <= |addrs|
    ensures FrameAt(addrs + more, i) == FrameAt(addrs, i)
  {
    if i > 0 {
      FrameAtPrefix(addrs, more, i - 1);
    }
  }

  /** At `o` there is the big-endian length of `a`, and then `a`. */
  ghost predicate Framed(raw: Bytes, o: nat, a: Bytes) {
    && o + 2 + |a| <= |raw| && |a| < 65536
    && raw[o] as int == |a| / 256 && raw[o + 1] as int == |a| % 256 && raw[o + 2..o + 2 + |a|] == a
  }

  lemma FrameLayout(before: Bytes, a: Bytes, tail: Bytes)
    requires |a| <= MAX_ADDR_LEN
    ensures Framed(before + (Frame(a) + tail), |before|, a)
  {
    var raw := before + (Frame(a) + tail);
    assert raw[|before|..] == Frame(a) + tail;
    assert raw[|before| + 2..|before| + 2 + |a|] == raw[|before|..][2..2 + |a|];
    assert (Frame(a) + tail)[2..2 + |a|] == a;
  }

  lemma {:induction false} FramesLayout(head: Bytes, addrs: seq<Bytes>, tail: Bytes, i: nat)
    requires |head| == 2 && Fit(addrs)
    ensures FrameAt(addrs, |addrs|) == 2 + |Frames(addrs)|
    ensures i < |addrs| ==> Framed(head + Frames(addrs) + tail, FrameAt(addrs, i), addrs[i])
    decreases |addrs|
  {
    if addrs != [] {
      var init, a := addrs[..|addrs| - 1], addrs[|addrs| - 1];
      assert addrs == init + [a];
      FramesSnoc(init, a);
      FramesLayout(head, init, Frame(a) + tail, i);
      FrameAtPrefix(init, [a], |init|);
      assert head + Frames(addrs) + tail == head + Frames(init) + (Frame(a) + tail);
      if i < |init| {
        FrameAtPrefix(init, [a], i);
      } else {
        FrameLayout(head + Frames(init), a, tail);
      }
    }
  }

  lemma KeyLast(before: Bytes, psk: Bytes, title: Bytes)
    ensures (before + (psk + title))[|before|..|before| + |psk|] == psk && (before + (psk + title))[|before| + |psk|..] == title
  {
  }

  /**
    An encoded invite, byte by byte: 1, the number of addresses, then for each its length in two bytes, the
    high one first, and its bytes, then the 32 bytes of the key, then the label. And what can be encoded.
   */
  lemma {:induction false} Layout(inv: Invite, i: nat)
    requires i < |inv.addrs|
    ensures Encode(inv).Ok? <==> |inv.psk| == 32 && |inv.addrs| <= 255 && forall k :: 0 <= k < |inv.addrs| ==> |inv.addrs[k]| <= 65535
    ensures Encode(inv).Ok? ==>
      var raw, end := Encode(inv).value, FrameAt(inv.addrs, |inv.addrs|);
      && |raw| == end + 32 + |inv.title| && raw[0] == 1 && raw[1] as int == |inv.addrs|
      && Framed(raw, FrameAt(inv.addrs, i), inv.addrs[i])
      && raw[end..end + 32] == inv.psk && raw[end + 32..] == inv.title
  {
    if Encode(inv).Ok? {
      var head, tail := [VERSION, |inv.addrs| as byte], inv.psk + inv.title;
      FramesLayout(head, inv.addrs, tail, i);
      var raw, end := Encode(inv).value, FrameAt(inv.addrs, |inv.addrs|);
      assert raw == head + Frames(inv.addrs) + tail;
      KeyLast(head + Frames(inv.addrs), inv.psk, inv.title);
    }
  }

  method EncodeInvite(inv: Invite) returns (r: Result<Bytes>)
    ensures r == Encode(inv)
  {
    if |inv.psk| != PSK_LEN {
      return Err("psk must be 32 bytes");
    }
    if |inv.addrs| == 0 {
      return Err("invite requires at least one multiaddr");
    }
    if |inv.addrs| > MAX_ADDRS {
      return Err("invite supports at most 255 multiaddrs");
    }
    var buf := [VERSION, |inv.addrs| as byte];
    ghost var head := buf;
    for i := 0 to |inv.addrs|
      invariant Fit(inv.addrs[..i])
      invariant buf == head + Frames(inv.addrs[..i])
    {
      var a := inv.addrs[i];
      if |a| > MAX_ADDR_LEN {
        return Err("multiaddr too long to encode");
      }
      FramesSnoc(inv.addrs[..i], a);
      assert inv.addrs[..i + 1] == inv.addrs[..i] + [a];
      buf := buf + [(|a| / 256) as byte, (|a| % 256) as byte];
      buf := buf + a;
    }
    assert inv.addrs[..|inv.addrs|] == inv.addrs;
    buf := buf + inv.psk;
    buf := buf + inv.title;
    return Ok(buf);
  }

  // ----- Decoding -----

  /** The length a frame starting here announces. */
  function FrameLen(raw: Bytes): nat
    requires |raw| >= 2
  {
    raw[0] as int * 256 + raw[1] as int
  }

  /** Reads `n` frames; the result is the addresses and what follows them. */
  function ReadAddrs(raw: Bytes, n: nat, parses: Bytes -> bool): Result<(seq<Bytes>, Bytes)> {
    if n == 0 then Ok(([], raw))
    else if |raw| < 2 then Err("invite truncated (addr length)")
    else if |raw| < 2 + FrameLen(raw) then Err("invite truncated (addr bytes)")
    else
      var a := raw[2..2 + FrameLen(raw)];
      if !parses(a) then Err("invite multiaddr invalid")
      else Prepend([a], ReadAddrs(raw[2 + FrameLen(raw)..], n - 1, parses))
  }

  function Prepend(addrs: seq<Bytes>, r: Result<(seq<Bytes>, Bytes)>): Result<(seq<Bytes>, Bytes)> {
    match r
    case Err(e) => r
    case Ok((rest, tail)) => Ok((addrs + rest, tail))
  }

  lemma PrependJoins(addrs: seq<Bytes>, a: Bytes, r: Result<(seq<Bytes>, Bytes)>)
    ensures Prepend([], r) == r
    ensures Prepend(addrs, Prepend([a], r)) == Prepend(addrs + [a], r)
  {
    if r.Ok? {
      assert [] + r.value.0 == r.value.0;
      assert addrs + ([a] + r.value.0) == (addrs + [a]) + r.value.0;
    }
  }

  function Decode(raw: Bytes, parses: Bytes -> bool): Result<Invite> {
    if |raw| < 1 then Err("invite truncated (version)")
    else if raw[0] != VERSION then Err("unsupported invite version")
    else if |raw| < 2 then Err("invite truncated (addr count)")
    else
      match ReadAddrs(raw[2..], raw[1] as nat, parses)
      case Err(e) => Err(e)
      case Ok((addrs, tail)) =>
        if |tail| < PSK_LEN then Err("invite truncated (psk)")
        else Ok(Invite(addrs, tail[..PSK_LEN], tail[PSK_LEN..]))
  }

  method DecodeInvite(raw: Bytes, parses: Bytes -> bool) returns (r: Result<Invite>)
    ensures r == Decode(raw, parses)
  {
    if |raw| < 1 {
      return Err("invite truncated (version)");
    }
    if raw[0] != VERSION {
      return Err("unsupported invite version");
    }
    if |raw| < 2 {
      return Err("invite truncated (addr count)");
    }
    var n := raw[1] as nat;
    var left := raw[2..];
    var addrs: seq<Bytes> := [];
    PrependJoins([], [], ReadAddrs(left, n, parses));
    for i := 0 to n
      invariant ReadAddrs(raw[2..], n, parses) == Prepend(addrs, ReadAddrs(left, n - i, parses))
    {
      if |left| < 2 {
        return Err("invite truncated (addr length)");
      }
      var len := left[0] as int * 256 + left[1] as int;
      if |left| < 2 + len {
        return Err("invite truncated (addr bytes)");
      }
      var a := left[2..2 + len];
      if !parses(a) {
        return Err("invite multiaddr invalid");
      }
      PrependJoins(addrs, a, ReadAddrs(left[2 + len..], n - i - 1, parses));
      left := left[2 + len..];
      addrs := addrs + [a];
    }
    assert addrs + [] == addrs;
    if |left| < PSK_LEN {
      return Err("invite truncated (psk)");
    }
    return Ok(Invite(addrs, left[..PSK_LEN], left[PSK_LEN..]));
  }

  // ----- Round trips -----

  lemma {:induction false} ReadFrames(addrs: seq<Bytes>, tail: Bytes, parses: Bytes -> bool)
    requires Fit(addrs) && forall i :: 0 <= i < |addrs| ==> parses(addrs[i])
    ensures ReadAddrs(Frames(addrs) + tail, |addrs|, parses) == Ok((addrs, tail))
  {
    var raw := Frames(addrs) + tail;
    if addrs == [] {
      assert raw == tail;
    } else {
      var a := addrs[0];
      assert raw == Frame(a) + (Frames(addrs[1..]) + tail);
      assert FrameLen(raw) == |a|;
      assert raw[2..2 + |a|] == a;
      assert raw[2 + |a|..] == Frames(addrs[1..]) + tail;
      ReadFrames(addrs[1..], tail, parses);
      assert [a] + addrs[1..] == addrs;
    }
  }

  lemma FrameOfRead(raw: Bytes)
    requires |raw| >= 2 && |raw| >= 2 + FrameLen(raw)
    ensures FrameLen(raw) <= MAX_ADDR_LEN
    ensures raw == Frame(raw[2..2 + FrameLen(raw)]) + raw[2 + FrameLen(raw)..]
  {
  }

  lemma {:induction false} FramesOfRead(raw: Bytes, n: nat, parses: Bytes -> bool)
    requires ReadAddrs(raw, n, parses).Ok?
    ensures var (addrs, tail) := ReadAddrs(raw, n, parses).value;
      && |addrs| == n && Fit(addrs) && (forall i :: 0 <= i < n ==> parses(addrs[i]))
      && raw == Frames(addrs) + tail
  {
    if n > 0 {
      var len := FrameLen(raw);
      FramesOfRead(raw[2 + len..], n - 1, parses);
      var (rest, tail) := ReadAddrs(raw[2 + len..], n - 1, parses).value;
      var a := raw[2..2 + len];
      assert ([a] + rest)[1..] == rest;
      FrameOfRead(raw);
      JoinAssociates(Frame(a), Frames(rest), tail);
    }
  }

  /** Decoding an encoded invite gives back its addresses, key and label. */
  lemma {:induction false} DecodeEncode(inv: Invite, parses: Bytes -> bool)
    requires Encode(inv).Ok? && forall i :: 0 <= i < |inv.addrs| ==> parses(inv.addrs[i])
    ensures Decode(Encode(inv).value, parses) == Ok(inv)
  {
    var raw := Encode(inv).value;
    var tail := inv.psk + inv.title;
    assert raw[2..] == Frames(inv.addrs) + tail;
    ReadFrames(inv.addrs, tail, parses);
    assert tail[..PSK_LEN] == inv.psk && tail[PSK_LEN..] == inv.title;
  }

  /** Re-encoding a decodable string gives it back exactly when it holds at least one address. */
  lemma {:induction false} EncodeDecode(raw: Bytes, parses: Bytes -> bool)
    requires Decode(raw, parses).Ok?
    ensures var inv := Decode(raw, parses).value;
      && (Encode(inv).Ok? <==> |inv.addrs| > 0)
      && (Encode(inv).Ok? ==> Encode(inv) == Ok(raw))
  {
    FramesOfRead(raw[2..], raw[1] as nat, parses);
    var (addrs, tail) := ReadAddrs(raw[2..], raw[1] as nat, parses).value;
    if |addrs| > 0 {
      assert [VERSION, |addrs| as byte] == raw[..2];
      Reassemble(raw, Frames(addrs), tail);
    }
  }

  lemma Reassemble(raw: Bytes, frames: Bytes, tail: Bytes)
    requires |raw| >= 2 && raw[2..] == frames + tail && |tail| >= PSK_LEN
    ensures raw[..2] + frames + tail[..PSK_LEN] + tail[PSK_LEN..] == raw
  {
  }

  /** Version 1, a count, that many framed addresses that parse, and at least 32 bytes more. */
  ghost predicate Spells(raw: Bytes, addrs: seq<Bytes>, tail: Bytes, parses: Bytes -> bool) {
    && Fit(addrs) && |addrs| <= 255 && |tail| >= 32 && (forall i :: 0 <= i < |addrs| ==> parses(addrs[i]))
    && raw == [1, |addrs| as byte] + Frames(addrs) + tail
  }

  lemma {:induction false} SpellsDecodes(raw: Bytes, addrs: seq<Bytes>, tail: Bytes, parses: Bytes -> bool)
    requires Spells(raw, addrs, tail, parses)
    ensures Decode(raw, parses) == Ok(Invite(addrs, tail[..32], tail[32..]))
  {
    assert raw[2..] == Frames(addrs) + tail;
    ReadFrames(addrs, tail, parses);
  }

  lemma {:induction false} DecodedSpells(raw: Bytes, parses: Bytes -> bool)
    requires Decode(raw, parses).Ok?
    ensures var inv := Decode(raw, parses).value; Spells(raw, inv.addrs, inv.psk + inv.title, parses)
  {
    FramesOfRead(raw[2..], raw[1] as nat, parses);
    var (addrs, tail) := ReadAddrs(raw[2..], raw[1] as nat, parses).value;
    assert tail[..PSK_LEN] + tail[PSK_LEN..] == tail;
    assert raw == raw[..2] + raw[2..] && raw[..2] == [1, |addrs| as byte];
  }

  /** A string decodes exactly when it spells an invite, and then to the addresses, key and label it spells. */
  lemma {:induction false} DecodesIff(raw: Bytes, parses: Bytes -> bool)
    ensures Decode(raw, parses).Ok? <==> exists addrs, tail :: Spells(raw, addrs, tail, parses)
    ensures forall addrs, tail :: Spells(raw, addrs, tail, parses) ==> Decode(raw, parses) == Ok(Invite(addrs, tail[..32], tail[32..]))
  {
    if Decode(raw, parses).Ok? {
      DecodedSpells(raw, parses);
    }
    forall addrs, tail | Spells(raw, addrs, tail, parses) ensures Decode(raw, parses) == Ok(Invite(addrs, tail[..32], tail[32..])) {
      SpellsDecodes(raw, addrs, tail, parses);
    }
  }

  /** `raw`, whose first `n` frames end at `cut`, behaves when only `k` bytes are kept. */
  ghost predicate CutsAt(raw: Bytes, n: nat, k: nat, parses: Bytes -> bool)
    requires ReadAddrs(raw, n, parses).Ok? && k <= |raw|
  {
    var (addrs, tail) := ReadAddrs(raw, n, parses).value;
    var cut := |raw| - |tail|;
    && cut >= 0
    && (k < cut ==> ReadAddrs(raw[..k], n, parses).Err?)
    && (k >= cut ==> ReadAddrs(raw[..k], n, parses) == Ok((addrs, tail[..k - cut])))
  }

  /** A frame sequence cut anywhere before its end is rejected; cut later, it reads the same with a shorter tail. */
  lemma {:induction false} CutFrames(raw: Bytes, n: nat, k: nat, parses: Bytes -> bool)
    requires ReadAddrs(raw, n, parses).Ok? && k <= |raw|
    ensures CutsAt(raw, n, k, parses)
  {
    if n > 0 {
      var rest := raw[2 + FrameLen(raw)..];
      if k >= 2 + FrameLen(raw) {
        CutFrames(rest, n - 1, k - 2 - FrameLen(raw), parses);
        CutFirst(raw, k);
      } else {
        CutFrames(rest, n - 1, 0, parses);
        assert k >= 2 ==> FrameLen(raw[..k]) == FrameLen(raw);
      }
    }
  }

  /** Keeping the whole first frame leaves it readable and the rest cut. */
  lemma CutFirst(raw: Bytes, k: nat)
    requires |raw| >= 2 && 2 + FrameLen(raw) <= k <= |raw|
    ensures FrameLen(raw[..k]) == FrameLen(raw)
    ensures raw[..k][2..2 + FrameLen(raw)] == raw[2..2 + FrameLen(raw)]
    ensures raw[..k][2 + FrameLen(raw)..] == raw[2 + FrameLen(raw)..][..k - 2 - FrameLen(raw)]
  {
  }

  /** Every truncation before the end of the key is rejected, and none after it. */
  lemma {:induction false} TruncationRejected(raw: Bytes, k: nat, parses: Bytes -> bool)
    requires Decode(raw, parses).Ok? && k <= |raw|
    ensures Decode(raw[..k], parses).Ok? <==> k >= |raw| - |Decode(raw, parses).value.title|
  {
    if k >= 2 {
      assert raw[..k][2..] == raw[2..][..k - 2];
      CutFrames(raw[2..], raw[1] as nat, k - 2, parses);
    } else {
      CutFrames(raw[2..], raw[1] as nat, 0, parses);
    }
  }
}
