/** Applying an invite to the node's configuration (internal/network/invite_apply.go, internal/config/config.go). */
module InviteApply {
  import opened Common
  import Invite

  const MODE_PUBLIC := "public"
  const MODE_PRIVATE := "private"
  const MODE_CUSTOM_PUBLIC := "custom_public"

  /** The fields that are validated or changed. */
  datatype Config = Config(networkMode: string, pskPath: string, networkId: Bytes, bootstrapPeers: seq<string>, apiPort: int,
                           listenAddrs: seq<string>, maxPeers: int, maxAppConnections: int)

  /** The first complaint, if any. */
  function Validate(c: Config): Option<string> {
    if c.networkMode == MODE_PRIVATE && c.pskPath == "" then Some("network_mode=private requires psk_path")
    else if c.networkMode == MODE_PRIVATE && c.bootstrapPeers == []
    then Some("network_mode=private requires at least one bootstrap_peers entry")
    else if c.networkMode == MODE_CUSTOM_PUBLIC && c.networkId == [] then Some("network_mode=custom_public requires network_id")
    else if c.networkMode !in {MODE_PUBLIC, MODE_PRIVATE, MODE_CUSTOM_PUBLIC} then Some("invalid network_mode")
    else if c.apiPort <= 0 || c.apiPort > 65535 then Some("api_port out of range")
    else if c.listenAddrs == [] then Some("at least one listen_addr is required")
    else if c.maxPeers <= 0 then Some("max_peers must be positive")
    else if c.maxAppConnections <= 0 then Some("max_app_connections must be positive")
    else None
  }

  /** A configuration is valid exactly when its mode is known and has what it needs, and its port, addresses and limits are usable. */
  lemma ValidMeans(c: Config)
    ensures Validate(c).None? <==>
      && (c.networkMode == "public" || (c.networkMode == "private" && c.pskPath != "" && |c.bootstrapPeers| > 0)
        || (c.networkMode == "custom_public" && c.networkId != []))
      && 1 <= c.apiPort <= 65535 && |c.listenAddrs| > 0 && c.maxPeers > 0 && c.maxAppConnections > 0
  {
  }

  /** Appends the addresses the list lacks, in order; `show` is the text form of an address. */
  function AddPeers(peers: seq<string>, addrs: seq<Bytes>, show: Bytes -> string): seq<string> {
    if addrs == [] then peers
    else
      var before, s := AddPeers(peers, addrs[..|addrs| - 1], show), show(addrs[|addrs| - 1]);
      if s in before then before else before + [s]
  }

  function PathOr(pskPath: string): string {
    if pskPath == "" then "./network.psk" else pskPath
  }

  function Applied(c: Config, inv: Invite.Invite, pskPath: string, show: Bytes -> string): Config {
    c.(networkMode := MODE_PRIVATE, pskPath := PathOr(pskPath),
       networkId := if inv.title != [] then inv.title else c.networkId,
       bootstrapPeers := AddPeers(c.bootstrapPeers, inv.addrs, show))
  }

  class ConfigHolder {
    var cfg: Config
    /** The key files written. */
    var files: map<string, Bytes>

    constructor (cfg: Config)
      ensures this.cfg == cfg && files == map[]
    {
      this.cfg := cfg;
      files := map[];
    }

    method ApplyInvite(inv: Invite.Invite, pskPath: string, show: Bytes -> string) returns (ok: bool)
      modifies this
      ensures ok <==> |inv.psk| == Invite.PSK_LEN
      ensures !ok ==> cfg == old(cfg) && files == old(files)
      ensures ok ==> cfg == Applied(old(cfg), inv, pskPath, show) && files == old(files)[PathOr(pskPath) := inv.psk]
      ensures ok ==> cfg.networkMode == "private" && cfg.pskPath in files && files[cfg.pskPath] == inv.psk
      ensures ok ==> cfg.pskPath == (if pskPath == "" then "./network.psk" else pskPath)
      ensures ok ==> cfg.networkId == (if inv.title != [] then inv.title else old(cfg).networkId)
      ensures ok ==> cfg.apiPort == old(cfg).apiPort && cfg.listenAddrs == old(cfg).listenAddrs
      ensures ok ==> cfg.maxPeers == old(cfg).maxPeers && cfg.maxAppConnections == old(cfg).maxAppConnections
    {
      var path := pskPath;
      if path == "" {
        path := "./network.psk";
      }
      if |inv.psk| != Invite.PSK_LEN {
        return false;
      }
      files := files[path := inv.psk];
      cfg := cfg.(networkMode := MODE_PRIVATE, pskPath := path);
      if inv.title != [] {
        cfg := cfg.(networkId := inv.title);
      }
      ghost var start := cfg;
      for i := 0 to |inv.addrs|
        invariant cfg == start.(bootstrapPeers := AddPeers(start.bootstrapPeers, inv.addrs[..i], show))
        invariant files == old(files)[path := inv.psk]
      {
        assert inv.addrs[..i + 1][..i] == inv.addrs[..i];
        var s := show(inv.addrs[i]);
        var found := ContainsString(cfg.bootstrapPeers, s);
        if !found {
          cfg := cfg.(bootstrapPeers := cfg.bootstrapPeers + [s]);
        }
      }
      assert inv.addrs[..|inv.addrs|] == inv.addrs;
      return true;
    }
  }

  method ContainsString(list: seq<string>, s: string) returns (found: bool)
    ensures found <==> s in list
  {
    for i := 0 to |list|
      invariant s !in list[..i]
    {
      if list[i] == s {
        return true;
      }
    }
    return false;
  }

  lemma {:induction false} AddPeersGrows(peers: seq<string>, addrs: seq<Bytes>, show: Bytes -> string)
    ensures var all := AddPeers(peers, addrs, show);
      && peers <= all
      && (forall i :: 0 <= i < |addrs| ==> show(addrs[i]) in all)
      && (forall i, k :: 0 <= i < k < |all| && k >= |peers| ==> all[i] != all[k])
  {
    if addrs != [] {
      AddPeersGrows(peers, addrs[..|addrs| - 1], show);
    }
  }

  /** Nothing is added when every address is there already. */
  lemma {:induction false} AddPeersAgain(peers: seq<string>, addrs: seq<Bytes>, show: Bytes -> string)
    requires forall i :: 0 <= i < |addrs| ==> show(addrs[i]) in peers
    ensures AddPeers(peers, addrs, show) == peers
  {
    if addrs != [] {
      AddPeersAgain(peers, addrs[..|addrs| - 1], show);
    }
  }

  /** Applying any invite with a key leaves a valid configuration valid exactly when there is then somebody to bootstrap from. */
  lemma {:induction false} AppliedValidIff(c: Config, inv: Invite.Invite, pskPath: string, show: Bytes -> string)
    requires Validate(c).None?
    ensures Validate(Applied(c, inv, pskPath, show)).None? <==> c.bootstrapPeers != [] || inv.addrs != []
  {
    AddPeersGrows(c.bootstrapPeers, inv.addrs, show);
  }

  /** The decoder lets an invite without addresses through, and applying it to a node without bootstrap peers breaks its configuration. */
  lemma {:induction false} InviteWithoutAddresses(c: Config, psk: Bytes, parses: Bytes -> bool, pskPath: string, show: Bytes -> string)
    requires |psk| == Invite.PSK_LEN && Validate(c).None?
    ensures var raw := [Invite.VERSION, 0] + psk;
      && Invite.Decode(raw, parses) == Ok(Invite.Invite([], psk, []))
      && (Validate(Applied(c, Invite.Decode(raw, parses).value, pskPath, show)).Some? <==> c.bootstrapPeers == [])
  {
    var raw := [Invite.VERSION, 0] + psk;
    assert raw[2..] == psk && psk[..Invite.PSK_LEN] == psk && psk[Invite.PSK_LEN..] == [];
    AppliedValidIff(c, Invite.Invite([], psk, []), pskPath, show);
  }

  /**
    Accepting what EncodeInvite produced keeps the node bootable: the configuration validates as
    private, keeps its bootstrap list as a prefix, gains no duplicates, and accepting again changes nothing.
   */
  lemma {:induction false} AcceptingKeepsBootable(c: Config, inv: Invite.Invite, parses: Bytes -> bool, pskPath: string, show: Bytes -> string)
    requires Validate(c).None?
    requires Invite.Encode(inv).Ok? && forall i :: 0 <= i < |inv.addrs| ==> parses(inv.addrs[i])
    ensures Invite.Decode(Invite.Encode(inv).value, parses).Ok?
    ensures var got := Invite.Decode(Invite.Encode(inv).value, parses).value;
      var c' := Applied(c, got, pskPath, show);
      && |got.psk| == Invite.PSK_LEN
      && Validate(c').None? && c'.networkMode == "private" && c'.pskPath == (if pskPath == "" then "./network.psk" else pskPath)
      && c'.networkId == (if inv.title != [] then inv.title else c.networkId)
      && c.bootstrapPeers <= c'.bootstrapPeers
      && (forall i :: 0 <= i < |inv.addrs| ==> show(inv.addrs[i]) in c'.bootstrapPeers)
      && (forall i, k :: 0 <= i < k < |c'.bootstrapPeers| && k >= |c.bootstrapPeers| ==> c'.bootstrapPeers[i] != c'.bootstrapPeers[k])
      && Applied(c', got, pskPath, show) == c' == Applied(c', got, c'.pskPath, show)
  {
    Invite.DecodeEncode(inv, parses);
    AddPeersGrows(c.bootstrapPeers, inv.addrs, show);
    AddPeersAgain(AddPeers(c.bootstrapPeers, inv.addrs, show), inv.addrs, show);
    AppliedValidIff(c, inv, pskPath, show);
  }
}
