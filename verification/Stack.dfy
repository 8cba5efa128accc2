/** The stack configuration (stack.json) and the check that every save and load passes through. */
module Stack {
  import opened Text

  datatype User = User(
    email: string, uuid: string, enabled: bool, bannedUntil: int,
    quotaBytes: int, downloadMbps: int, uploadMbps: int, bandwidthPort: int,
    dailyQuota: int, weeklyQuota: int, monthlyQuota: int, dailyResetHHMM: string, maxSessions: int)

  datatype SOCKSInbound = SOCKSInbound(name: string, listen: string, port: int, username: string, password: string)

  /** `extra` is the rendered xhttp tuning blob ("" when unset); `extraOk` is the outcome of its range checks. */
  datatype ClientEndpoint = ClientEndpoint(
    name: string, host: string, port: int, network: string, path: string, mode: string,
    tls: bool, enabled: bool, linkCompat: bool, extra: string, extraOk: bool)

  datatype Inbounds = Inbounds(
    vlessWSPort: int, vlessXHTTPPort: int, xhttpPath: string, xhttpMode: string, tuningOk: bool,
    xhttpLinkCompat: bool, localSOCKSPort: int, publicSOCKS: seq<SOCKSInbound>)

  datatype Outbound = Outbound(tag: string, iface: string)

  datatype Routing = Routing(
    blockUDP443: bool, directDomains: seq<string>, directIPs: seq<string>, blockDomains: seq<string>,
    blockIPs: seq<string>, manualBlockDomains: seq<string>, aiUpdateDomains: seq<string>,
    aiDomains: seq<string>, aiOutboundTag: string)

  datatype Site = Site(domain: string, enabled: bool)

  datatype Relay = Relay(enabled: bool, listen: string, outboundTag: string, sites: seq<Site>, inboundTags: seq<string>)

  /** `tunAddrOk` is the outcome of parsing the tunnel address as a CIDR; `numbersOk` of the sign checks. */
  datatype SNISpoof = SNISpoof(
    enabled: bool, listen: string, outboundTag: string, method_: string, sites: seq<Site>, inboundTags: seq<string>,
    tunAddrOk: bool, numbersOk: bool)

  datatype Tunnel = Tunnel(name: string, iface: string)

  datatype Failover = Failover(
    enabled: bool, mode: string, preferredTunnel: string,
    confirmations: int, cooldownSeconds: int, fallbackOutboundTag: string)

  datatype Config = Config(
    adminListen: string, xrayConfigPath: string, failoverStatePath: string, publicIP: string,
    endpoints: seq<ClientEndpoint>, apiPort: int, inbounds: Inbounds, users: seq<User>,
    proxy: Outbound, fallback: Outbound, routing: Routing, tunnels: seq<Tunnel>,
    failover: Failover, relay: Relay, sniSpoof: SNISpoof)

  // ---- defaults applied at read time ----

  function OrDefault(s: string, default_: string): string { if s == "" then default_ else s }

  function XHTTPPath(i: Inbounds): string { OrDefault(i.xhttpPath, "/xhttp") }
  function XHTTPMode(i: Inbounds): string { OrDefault(i.xhttpMode, "auto") }
  function RelayListen(r: Relay): string { OrDefault(r.listen, "127.0.0.1:8085") }
  function RelayTag(r: Relay): string { OrDefault(r.outboundTag, "relay-mhrv") }
  function SpoofListen(s: SNISpoof): string { OrDefault(s.listen, "127.0.0.1:8087") }
  function SpoofTag(s: SNISpoof): string { OrDefault(s.outboundTag, "sni-spoof") }
  function SpoofMethod(s: SNISpoof): string { OrDefault(s.method_, "fake") }

  datatype Policy = Auto | Manual | Preferred

  function EffectivePolicy(f: Failover): Policy {
    if f.mode == "manual" then Manual else if f.mode == "preferred" then Preferred else Auto
  }

  predicate Routed(s: Site) { s.enabled && s.domain != "" }

  /** The domains routed through a plugin, in order. */
  ghost function RoutedDomains(sites: seq<Site>): seq<string> {
    if sites == [] then []
    else (if Routed(sites[0]) then [sites[0].domain] else []) + RoutedDomains(sites[1..])
  }

  lemma {:induction false} RoutedDomainsAre(sites: seq<Site>, d: string)
    ensures d in RoutedDomains(sites) <==> d != "" && exists s :: s in sites && s.enabled && s.domain == d
  {
    if sites == [] {
    } else {
      RoutedDomainsAre(sites[1..], d);
      assert forall s :: s in sites <==> s == sites[0] || s in sites[1..];
    }
  }

  method EnabledDomains(sites: seq<Site>) returns (out: seq<string>)
    ensures out == RoutedDomains(sites)
  {
    out := [];
    for i := 0 to |sites|
      invariant out + RoutedDomains(sites[i..]) == RoutedDomains(sites)
    {
      assert sites[i..][0] == sites[i] && sites[i..][1..] == sites[i + 1..];
      if sites[i].enabled && sites[i].domain != "" { out := out + [sites[i].domain]; }
    }
  }

  // ---- what a valid configuration is ----

  predicate XHTTPModeOk(m: string) { m in {"auto", "packet-up", "stream-up", "stream-one"} }

  predicate RootedPath(p: string) { p != "" && p[0] == '/' }

  predicate EndpointOk(ep: ClientEndpoint) {
    && ep.name != "" && ep.host != "" && 1 <= ep.port <= 65535
    && (ep.network == "ws" || ep.network == "xhttp") && RootedPath(ep.path)
    && (ep.mode == "" || XHTTPModeOk(ep.mode)) && ep.extraOk
  }

  predicate UserOk(u: User) {
    && u.email != "" && u.uuid != ""
    && u.quotaBytes >= 0 && u.downloadMbps >= 0 && u.uploadMbps >= 0
    && u.dailyQuota >= 0 && u.weeklyQuota >= 0 && u.monthlyQuota >= 0 && u.maxSessions >= 0
    && (u.dailyResetHHMM == "" || ParseHHMM(u.dailyResetHHMM).Some?)
    && (u.bandwidthPort == 0 || 1 <= u.bandwidthPort <= 65535)
  }

  /** Every configured listening port; 0 stands for "not configured". */
  ghost function Ports(c: Config): seq<int> {
    FixedPorts(c) + UserPorts(c.users) + SOCKSPorts(c.inbounds.publicSOCKS) + SpoofPorts(c.sniSpoof)
  }

  ghost function FixedPorts(c: Config): seq<int> {
    [c.inbounds.vlessWSPort, c.inbounds.vlessXHTTPPort, c.inbounds.localSOCKSPort, c.apiPort]
  }

  ghost function UserPorts(users: seq<User>): seq<int> {
    seq(|users|, i requires 0 <= i < |users| => users[i].bandwidthPort)
  }

  ghost function SOCKSPorts(socks: seq<SOCKSInbound>): seq<int> {
    seq(|socks|, i requires 0 <= i < |socks| => socks[i].port)
  }

  ghost function SpoofPorts(s: SNISpoof): seq<int> {
    if s.enabled then match ListenPort(SpoofListen(s)) case Some(p) => [p] case None => [] else []
  }

  /** A port of a `host:port` string that has a non-empty host and a port in 1..65535. */
  function ListenPort(addr: string): (r: Option<int>)
    ensures r.Some? ==> 1 <= r.value <= 65535
  {
    match SplitHostPort(addr)
    case None => None
    case Some((host, p)) =>
      match Atoi(p)
      case Some(n) => if 1 <= n <= 65535 && host != "" then Some(n) else None
      case None => None
  }

  /** No two listeners share a configured port. */
  ghost predicate NoClash(ports: seq<int>) {
    forall i, j :: 0 <= i < j < |ports| && ports[i] == ports[j] ==> ports[i] == 0
  }

  ghost predicate DistinctDomains(sites: seq<Site>) {
    && (forall i :: 0 <= i < |sites| ==> sites[i].domain != "")
    && (forall i, j :: 0 <= i < j < |sites| ==> sites[i].domain != sites[j].domain)
  }

  ghost predicate DistinctEmails(users: seq<User>) {
    forall i, j :: 0 <= i < j < |users| ==> users[i].email != users[j].email
  }

  predicate BuiltInTag(c: Config, tag: string) {
    tag == c.proxy.tag || tag == c.fallback.tag || tag == "direct" || tag == "block" || tag == "api"
  }

  ghost predicate RelayOk(c: Config) {
    c.relay.enabled ==>
      ListenPort(RelayListen(c.relay)).Some? && !BuiltInTag(c, RelayTag(c.relay)) && DistinctDomains(c.relay.sites)
  }

  ghost predicate SpoofOk(c: Config) {
    c.sniSpoof.enabled ==>
      && ListenPort(SpoofListen(c.sniSpoof)).Some?
      && !BuiltInTag(c, SpoofTag(c.sniSpoof)) && SpoofTag(c.sniSpoof) != RelayTag(c.relay)
      && SpoofMethod(c.sniSpoof) in {"fake", "split", "disorder", "auto"}
      && c.sniSpoof.tunAddrOk && c.sniSpoof.numbersOk && DistinctDomains(c.sniSpoof.sites)
  }

  ghost predicate FailoverOk(c: Config) {
    && c.failover.mode in {"", "auto", "manual", "preferred"}
    && (c.failover.preferredTunnel != "" ==> exists t :: t in c.tunnels && t.name == c.failover.preferredTunnel)
    && (c.failover.mode in {"manual", "preferred"} ==> c.failover.preferredTunnel != "")
  }

  ghost predicate HeaderOk(c: Config) {
    && c.adminListen != "" && c.xrayConfigPath != "" && c.inbounds.vlessWSPort != 0
    && RootedPath(XHTTPPath(c.inbounds)) && XHTTPModeOk(XHTTPMode(c.inbounds)) && c.inbounds.tuningOk
    && c.proxy.tag != ""
  }

  ghost predicate EndpointsOk(eps: seq<ClientEndpoint>) {
    && (forall i :: 0 <= i < |eps| ==> EndpointOk(eps[i]))
    && (forall i, j :: 0 <= i < j < |eps| ==> eps[i].name != eps[j].name)
  }

  ghost predicate UsersOk(users: seq<User>) {
    && (forall i :: 0 <= i < |users| ==> UserOk(users[i]))
    && DistinctEmails(users)
  }

  ghost predicate Valid(c: Config) {
    HeaderOk(c) && EndpointsOk(c.endpoints) && UsersOk(c.users) && NoClash(Ports(c))
    && FailoverOk(c) && RelayOk(c) && SpoofOk(c)
  }

  // ---- Validate ----

  datatype ConfigError =
    | BadHeader | BadEndpoint(name: string) | DuplicateEndpoint(name: string)
    | BadUser(email: string) | DuplicateUser(email: string)
    | PortClash(port: int, first: string, second: string)
    | BadFailover | BadRelay | BadSNISpoof

  lemma ClashInPrefix(p: seq<int>, q: seq<int>)
    ensures NoClash(p + q) ==> NoClash(p)
  {
    if NoClash(p + q) {
      forall i, j | 0 <= i < j < |p| && p[i] == p[j] ensures p[i] == 0 {
        assert (p + q)[i] == p[i] && (p + q)[j] == p[j];
      }
    }
  }

  /** The map `ports` records exactly the configured ports among `seen`. */
  ghost predicate Records(ports: map<int, string>, seen: seq<int>) {
    && NoClash(seen)
    && (forall p :: p in ports <==> p != 0 && p in seen)
  }

  method AddPort(ports: map<int, string>, port: int, owner: string, ghost seen: seq<int>)
    returns (next: map<int, string>, err: Option<ConfigError>)
    requires Records(ports, seen)
    ensures err.None? <==> NoClash(seen + [port])
    ensures err.None? ==> Records(next, seen + [port])
    ensures err.Some? ==> err.value.PortClash? && err.value.port == port && port in seen
  {
    var after := seen + [port];
    if port == 0 {
      return ports, None;
    }
    if port in ports {
      ghost var i :| 0 <= i < |seen| && seen[i] == port;
      assert after[i] == after[|seen|];
      return ports, Some(PortClash(port, ports[port], owner));
    }
    return ports[port := owner], None;
  }

  method CheckSites(sites: seq<Site>) returns (ok: bool)
    ensures ok <==> DistinctDomains(sites)
  {
    var seen: set<string> := {};
    for i := 0 to |sites|
      invariant DistinctDomains(sites[..i])
      invariant forall d :: d in seen <==> exists j :: 0 <= j < i && sites[j].domain == d
    {
      if sites[i].domain == "" || sites[i].domain in seen { return false; }
      seen := seen + {sites[i].domain};
    }
    assert sites[..|sites|] == sites;
    return true;
  }

  method CheckEndpoints(eps: seq<ClientEndpoint>) returns (err: Option<ConfigError>)
    ensures err.None? <==> EndpointsOk(eps)
  {
    var seen: set<string> := {};
    for i := 0 to |eps|
      invariant EndpointsOk(eps[..i])
      invariant forall n :: n in seen <==> exists j :: 0 <= j < i && eps[j].name == n
    {
      var ep := eps[i];
      if ep.name in seen { return Some(DuplicateEndpoint(ep.name)); }
      seen := seen + {ep.name};
      if !EndpointOk(ep) { return Some(BadEndpoint(ep.name)); }
    }
    assert eps[..|eps|] == eps;
    return None;
  }

  lemma UserPortsStep(fixed: seq<int>, users: seq<User>, i: nat)
    requires i < |users|
    ensures fixed + UserPorts(users[..i + 1]) == fixed + UserPorts(users[..i]) + [users[i].bandwidthPort]
    ensures NoClash(fixed + UserPorts(users)) ==> NoClash(fixed + UserPorts(users[..i + 1]))
  {
    assert fixed + UserPorts(users) == fixed + UserPorts(users[..i + 1]) + UserPorts(users[i + 1..]);
    ClashInPrefix(fixed + UserPorts(users[..i + 1]), UserPorts(users[i + 1..]));
  }

  lemma UsersOkStep(users: seq<User>, i: nat)
    requires i < |users| && UsersOk(users[..i])
    ensures UsersOk(users[..i + 1]) <==> UserOk(users[i]) && forall j :: 0 <= j < i ==> users[j].email != users[i].email
    ensures UsersOk(users) ==> UsersOk(users[..i + 1])
  {
    var before, after := users[..i], users[..i + 1];
    assert forall j :: 0 <= j < i ==> before[j] == users[j] == after[j];
    assert after[i] == users[i];
  }

  method CheckUsers(users: seq<User>, ports: map<int, string>, ghost fixed: seq<int>)
    returns (next: map<int, string>, err: Option<ConfigError>)
    requires Records(ports, fixed)
    ensures err.None? <==> UsersOk(users) && NoClash(fixed + UserPorts(users))
    ensures err.None? ==> Records(next, fixed + UserPorts(users))
  {
    next, err := ports, None;
    var seen: set<string> := {};
    assert fixed + UserPorts(users[..0]) == fixed;
    for i := 0 to |users|
      invariant err.None? && UsersOk(users[..i])
      invariant forall e :: e in seen <==> exists j :: 0 <= j < i && users[j].email == e
      invariant Records(next, fixed + UserPorts(users[..i]))
    {
      var u := users[i];
      UsersOkStep(users, i);
      UserPortsStep(fixed, users, i);
      if u.email in seen { return next, Some(DuplicateUser(u.email)); }
      seen := seen + {u.email};
      if !UserOk(u) { return next, Some(BadUser(u.email)); }
      next, err := AddPort(next, u.bandwidthPort, "bandwidth " + u.email, fixed + UserPorts(users[..i]));
      if err.Some? { return; }
    }
    assert users[..|users|] == users;
  }

  method CheckSOCKS(socks: seq<SOCKSInbound>, ports: map<int, string>, ghost before: seq<int>)
    returns (next: map<int, string>, err: Option<ConfigError>)
    requires Records(ports, before)
    ensures err.None? <==> NoClash(before + SOCKSPorts(socks))
    ensures err.None? ==> Records(next, before + SOCKSPorts(socks))
  {
    next, err := ports, None;
    assert before + SOCKSPorts(socks[..0]) == before;
    for i := 0 to |socks|
      invariant err.None? && Records(next, before + SOCKSPorts(socks[..i]))
    {
      ghost var seen := before + SOCKSPorts(socks[..i]);
      assert seen + [socks[i].port] == before + SOCKSPorts(socks[..i + 1]);
      next, err := AddPort(next, socks[i].port, "SOCKS " + socks[i].name, seen);
      if err.Some? {
        assert before + SOCKSPorts(socks) == (seen + [socks[i].port]) + SOCKSPorts(socks[i + 1..]);
        ClashInPrefix(seen + [socks[i].port], SOCKSPorts(socks[i + 1..]));
        return;
      }
    }
    assert socks[..|socks|] == socks;
  }

  method CheckFixedPorts(c: Config) returns (ports: map<int, string>, err: Option<ConfigError>)
    ensures err.None? <==> NoClash(FixedPorts(c))
    ensures err.None? ==> Records(ports, FixedPorts(c))
  {
    ports, err := map[], None;
    var items := [(c.inbounds.vlessWSPort, "vless-ws"), (c.inbounds.vlessXHTTPPort, "vless-xhttp"),
                  (c.inbounds.localSOCKSPort, "local-socks"), (c.apiPort, "xray-api")];
    ghost var all := FixedPorts(c);
    for i := 0 to 4
      invariant err.None? && Records(ports, all[..i])
    {
      assert items[i].0 == all[i] && all[..i] + [all[i]] == all[..i + 1];
      ports, err := AddPort(ports, items[i].0, items[i].1, all[..i]);
      if err.Some? {
        assert all == all[..i + 1] + all[i + 1..];
        ClashInPrefix(all[..i + 1], all[i + 1..]);
        return;
      }
    }
    assert all[..4] == all;
  }

  method CheckFailover(c: Config) returns (ok: bool)
    ensures ok <==> FailoverOk(c)
  {
    if c.failover.mode !in {"", "auto", "manual", "preferred"} { return false; }
    if c.failover.preferredTunnel != "" {
      var found := false;
      for i := 0 to |c.tunnels|
        invariant !found && forall j :: 0 <= j < i ==> c.tunnels[j].name != c.failover.preferredTunnel
      {
        if c.tunnels[i].name == c.failover.preferredTunnel { found := true; break; }
      }
      if !found { return false; }
    }
    return !(c.failover.mode in {"manual", "preferred"} && c.failover.preferredTunnel == "");
  }

  method CheckSpoof(c: Config, ports: map<int, string>, ghost before: seq<int>) returns (err: Option<ConfigError>)
    requires Records(ports, before)
    ensures err.None? <==> SpoofOk(c) && NoClash(before + SpoofPorts(c.sniSpoof))
  {
    if !c.sniSpoof.enabled {
      assert before + [] == before;
      return None;
    }
    var port := ListenPort(SpoofListen(c.sniSpoof));
    var tag := SpoofTag(c.sniSpoof);
    if port.None? || BuiltInTag(c, tag) || tag == RelayTag(c.relay)
       || SpoofMethod(c.sniSpoof) !in {"fake", "split", "disorder", "auto"}
       || !c.sniSpoof.tunAddrOk || !c.sniSpoof.numbersOk {
      return Some(BadSNISpoof);
    }
    var next;
    next, err := AddPort(ports, port.value, "sni-spoof", before);
    if err.Some? { return; }
    var ok := CheckSites(c.sniSpoof.sites);
    if !ok { return Some(BadSNISpoof); }
  }

  /** The checks of Validate in source order: it succeeds exactly on the valid configurations. */
  method Validate(c: Config) returns (err: Option<ConfigError>)
    ensures err.None? <==> Valid(c)
  {
    if c.adminListen == "" || c.xrayConfigPath == "" || c.inbounds.vlessWSPort == 0
       || !RootedPath(XHTTPPath(c.inbounds)) || !XHTTPModeOk(XHTTPMode(c.inbounds)) || !c.inbounds.tuningOk
       || c.proxy.tag == "" {
      return Some(BadHeader);
    }
    ghost var fixed, users, socks, spoof := FixedPorts(c), UserPorts(c.users), SOCKSPorts(c.inbounds.publicSOCKS),
        SpoofPorts(c.sniSpoof);
    assert Ports(c) == fixed + (users + socks + spoof) == (fixed + users) + (socks + spoof)
      == (fixed + users + socks) + spoof;
    ClashInPrefix(fixed, users + socks + spoof);
    ClashInPrefix(fixed + users, socks + spoof);
    ClashInPrefix(fixed + users + socks, spoof);
    var ports;
    ports, err := CheckFixedPorts(c);
    if err.Some? { return; }
    err := CheckEndpoints(c.endpoints);
    if err.Some? { return; }
    ports, err := CheckUsers(c.users, ports, fixed);
    if err.Some? { return; }
    ports, err := CheckSOCKS(c.inbounds.publicSOCKS, ports, fixed + users);
    if err.Some? { return; }
    var ok := CheckFailover(c);
    if !ok { return Some(BadFailover); }
    if c.relay.enabled {
      if ListenPort(RelayListen(c.relay)).None? || BuiltInTag(c, RelayTag(c.relay)) { return Some(BadRelay); }
      ok := CheckSites(c.relay.sites);
      if !ok { return Some(BadRelay); }
    }
    err := CheckSpoof(c, ports, fixed + users + socks);
  }
}
