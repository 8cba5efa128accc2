/** A small valid configuration, from which the findings about particular inputs are built. */
module Samples {
  import opened Text
  import opened Stack

  const ALICE := User("alice", "uuid-a", true, 0, 0, 0, 0, 0, 0, 0, 0, "", 0)
  const BOB := User("bob", "uuid-b", true, 0, 0, 0, 0, 0, 0, 0, 0, "", 0)

  const NO_ROUTING := Routing(false, [], [], [], [], [], [], [], "")
  const NO_RELAY := Relay(false, "", "", [], [])
  const NO_SPOOF := SNISpoof(false, "", "", "", [], [], true, true)

  const INBOUNDS := Inbounds(8080, 8081, "", "", true, false, 1080, [])

  const SAMPLE := Config(
    "127.0.0.1:9090", "/etc/xray.json", "", "203.0.113.1",
    [], 10085, INBOUNDS, [],
    Outbound("proxy", "tun0"), Outbound("fallback", ""), NO_ROUTING, [Tunnel("first", "tun0")],
    Failover(true, "", "", 1, 60, ""), NO_RELAY, NO_SPOOF)

  /** A listen address on the loopback interface. */
  function Loopback(port: int): string { "127.0.0.1" + [':'] + Itoa(port) }

  lemma LoopbackHost()
    ensures forall i ::
            0 <= i < |"127.0.0.1"| ==> "127.0.0.1"[i] != ':' && "127.0.0.1"[i] != '[' && "127.0.0.1"[i] != ']'
  {
  }

  lemma HostAndPort(host: string, p: string)
    requires host != "" && AllDigits(p)
    requires forall i :: 0 <= i < |host| ==> host[i] != ':' && host[i] != '[' && host[i] != ']'
    ensures SplitHostPort(host + [':'] + p) == Some((host, p))
  {
    var s := host + [':'] + p;
    FindLastConcat(host, ':', p);
    assert s[..|host|] == host && s[|host| + 1..] == p;
  }

  lemma LoopbackListens(port: int)
    requires 1 <= port <= 65535
    ensures ListenPort(Loopback(port)) == Some(port)
  {
    LoopbackHost();
    HostAndPort("127.0.0.1", Itoa(port));
    AtoiItoa(port);
  }

  /** The sample with other users, SOCKS inbounds, local SOCKS port, sni-spoof plugin, failover tags and AI domains. */
  function Variant(users: seq<User>, socks: seq<SOCKSInbound>, local: int, spoof: SNISpoof, fallbackTag: string,
                   ai: seq<string>): Config
  {
    SAMPLE.(users := users, inbounds := INBOUNDS.(localSOCKSPort := local, publicSOCKS := socks), sniSpoof := spoof,
            failover := SAMPLE.failover.(fallbackOutboundTag := fallbackTag), routing := NO_ROUTING.(aiDomains := ai))
  }

  lemma VariantIsValid(users: seq<User>, socks: seq<SOCKSInbound>, local: int, spoof: SNISpoof, fallbackTag: string,
                       ai: seq<string>)
    requires UsersOk(users)
    requires NoClash([8080, 8081, local, 10085] + UserPorts(users) + SOCKSPorts(socks) + SpoofPorts(spoof))
    requires spoof == NO_SPOOF
            || (spoof == NO_SPOOF.(enabled := true, listen := spoof.listen) && ListenPort(SpoofListen(spoof)).Some?)
    ensures Valid(Variant(users, socks, local, spoof, fallbackTag, ai))
  {
  }

  lemma AliceIsOk()
    ensures UsersOk([ALICE]) && UserPorts([ALICE]) == [0]
  {
  }
}
