/** Outbounds and routing rules: every rule must name an outbound that exists. */
module RoutingRules {
  import opened Text
  import opened Stack
  import opened Compile
  import opened Samples
  import Loop = FailoverLoop

  // ---- outbounds ----

  /** Host and port of the relay proxy as the outbound names them. */
  function ParseRelayListen(addr: string): Option<(string, int)> {
    match SplitHostPort(addr)
    case None => None
    case Some((h, p)) =>
      match Atoi(p)
      case Some(n) => Some((if h == "" || h == "0.0.0.0" then "127.0.0.1" else h, n))
      case None => None
  }

  ghost predicate HasTargets(sites: seq<Site>, inboundTags: seq<string>) {
    RoutedDomains(sites) != [] || inboundTags != []
  }

  ghost predicate RelayEmitted(c: Config) {
    c.relay.enabled && HasTargets(c.relay.sites, c.relay.inboundTags) && ParseRelayListen(RelayListen(c.relay)).Some?
  }

  ghost predicate SpoofEmitted(c: Config) {
    c.sniSpoof.enabled && HasTargets(c.sniSpoof.sites, c.sniSpoof.inboundTags)
  }

  ghost function OutboundTags(c: Config): seq<string> {
    [c.proxy.tag, c.fallback.tag, "direct", "block"]
    + (if RelayEmitted(c) then [RelayTag(c.relay)] else [])
    + (if SpoofEmitted(c) then [SpoofTag(c.sniSpoof)] else [])
  }

  method GenerateOutbounds(c: Config) returns (tags: seq<string>)
    ensures tags == OutboundTags(c)
  {
    tags := [c.proxy.tag, c.fallback.tag, "direct", "block"];
    var domains := EnabledDomains(c.relay.sites);
    if c.relay.enabled && !(|domains| == 0 && |c.relay.inboundTags| == 0)
      && ParseRelayListen(RelayListen(c.relay)).Some? {
      tags := tags + [RelayTag(c.relay)];
    }
    domains := EnabledDomains(c.sniSpoof.sites);
    if c.sniSpoof.enabled && !(|domains| == 0 && |c.sniSpoof.inboundTags| == 0) {
      tags := tags + [SpoofTag(c.sniSpoof)];
    }
  }

  // ---- rules ----

  function AITag(c: Config): string { OrDefault(c.routing.aiOutboundTag, c.proxy.tag) }

  function DomainRule(domains: seq<string>, target: string): seq<Rule> {
    if |domains| > 0 then [Rule(Domains(domains), target)] else []
  }

  function IPRule(ips: seq<string>, target: string): seq<Rule> {
    if |ips| > 0 then [Rule(IPs(ips), target)] else []
  }

  function BuiltInRules(r: Routing): seq<Rule> {
    [Rule(InboundTags(["xray-api"]), "api")]
    + (if r.blockUDP443 then [Rule(UDP443, "block")] else [])
    + DomainRule(r.directDomains, "direct") + IPRule(r.directIPs, "direct")
    + DomainRule(r.blockDomains, "block") + IPRule(r.blockIPs, "block") + DomainRule(r.manualBlockDomains, "block")
  }

  function AIRules(c: Config): seq<Rule> {
    DomainRule(c.routing.aiUpdateDomains, AITag(c)) + DomainRule(c.routing.aiDomains, AITag(c))
  }

  ghost function PluginRules(enabled: bool, inboundTags: seq<string>, sites: seq<Site>, tag: string): seq<Rule> {
    if !enabled then [] else
      (if |inboundTags| > 0 then [Rule(InboundTags(inboundTags), tag)] else []) + DomainRule(RoutedDomains(sites), tag)
  }

  ghost function RelayRules(c: Config): seq<Rule> {
    PluginRules(c.relay.enabled, c.relay.inboundTags, c.relay.sites, RelayTag(c.relay))
  }

  ghost function SpoofRules(c: Config): seq<Rule> {
    PluginRules(c.sniSpoof.enabled, c.sniSpoof.inboundTags, c.sniSpoof.sites, SpoofTag(c.sniSpoof))
  }

  /** The rules in evaluation order. */
  ghost function RulesOf(c: Config): seq<Rule> {
    BuiltInRules(c.routing) + AIRules(c) + RelayRules(c) + SpoofRules(c)
  }

  method AppendIf(rules: seq<Rule>, wanted: bool, rule: Rule) returns (r: seq<Rule>)
    ensures r == rules + if wanted then [rule] else []
  {
    r := rules;
    if wanted { r := r + [rule]; }
  }

  method GenerateBuiltIn(t: Routing) returns (r: seq<Rule>)
    ensures r == BuiltInRules(t)
  {
    r := [Rule(InboundTags(["xray-api"]), "api")];
    r := AppendIf(r, t.blockUDP443, Rule(UDP443, "block"));
    r := AppendIf(r, |t.directDomains| > 0, Rule(Domains(t.directDomains), "direct"));
    r := AppendIf(r, |t.directIPs| > 0, Rule(IPs(t.directIPs), "direct"));
    r := AppendIf(r, |t.blockDomains| > 0, Rule(Domains(t.blockDomains), "block"));
    r := AppendIf(r, |t.blockIPs| > 0, Rule(IPs(t.blockIPs), "block"));
    r := AppendIf(r, |t.manualBlockDomains| > 0, Rule(Domains(t.manualBlockDomains), "block"));
  }

  method GenerateRules(c: Config) returns (r: seq<Rule>)
    ensures r == RulesOf(c)
  {
    r := GenerateBuiltIn(c.routing);
    var ai := c.routing.aiOutboundTag;
    if ai == "" { ai := c.proxy.tag; }
    var more := AppendIf([], |c.routing.aiUpdateDomains| > 0, Rule(Domains(c.routing.aiUpdateDomains), ai));
    more := AppendIf(more, |c.routing.aiDomains| > 0, Rule(Domains(c.routing.aiDomains), ai));
    assert more == AIRules(c);
    r := r + more;
    r := AppendPlugin(r, c.relay.enabled, c.relay.inboundTags, c.relay.sites, RelayTag(c.relay));
    r := AppendPlugin(r, c.sniSpoof.enabled, c.sniSpoof.inboundTags, c.sniSpoof.sites, SpoofTag(c.sniSpoof));
  }

  method AppendPlugin(rules: seq<Rule>, enabled: bool, inboundTags: seq<string>, sites: seq<Site>, tag: string)
    returns (r: seq<Rule>)
    ensures r == rules + PluginRules(enabled, inboundTags, sites, tag)
  {
    r := rules;
    if enabled {
      if |inboundTags| > 0 { r := r + [Rule(InboundTags(inboundTags), tag)]; }
      var domains := EnabledDomains(sites);
      if |domains| > 0 { r := r + [Rule(Domains(domains), tag)]; }
    }
  }

  // ---- agreement ----

  ghost predicate Targeted(rules: seq<Rule>, tag: string) { exists r :: r in rules && r.target == tag }

  ghost predicate Resolves(c: Config, r: Rule) { r.target == "api" || r.target in OutboundTags(c) }

  /** No rule sends traffic to a tag that does not exist. */
  ghost predicate Closed(c: Config) { forall r :: r in RulesOf(c) ==> Resolves(c, r) }

  predicate HasAIRules(c: Config) { |c.routing.aiUpdateDomains| > 0 || |c.routing.aiDomains| > 0 }

  /** What Validate accepts as a listen address is one the outbound can be built from. */
  lemma ValidListenParses(addr: string)
    requires ListenPort(addr).Some?
    ensures ParseRelayListen(addr).Some? && ParseRelayListen(addr).value.1 == ListenPort(addr).value
  {
  }

  /** The relay outbound goes to the listener's own host and port; a wildcard or missing host means loopback. */
  lemma RelayAddressIs(host: string, port: int)
    requires NoBrackets(host) && ':' !in host
    ensures ParseRelayListen(host + ":" + Itoa(port))
         == Some((if host == "" || host == "0.0.0.0" then "127.0.0.1" else host, port))
    ensures ListenPort(host + ":" + Itoa(port)) == if host != "" && 1 <= port <= 65535 then Some(port) else None
  {
    ItoaIsPlain(port);
    HostPortSplits(host, Itoa(port));
    AtoiItoa(port);
  }

  lemma ItoaIsPlain(n: int)
    ensures NoBrackets(Itoa(n)) && ':' !in Itoa(n)
  {
  }

  /** Plugins without a listen address are expected on loopback, on ports of their own. */
  lemma DefaultListenIs(r: Relay, s: SNISpoof)
    requires r.listen == "" && s.listen == ""
    ensures ParseRelayListen(RelayListen(r)) == Some(("127.0.0.1", 8085)) && ListenPort(RelayListen(r)) == Some(8085)
    ensures ListenPort(SpoofListen(s)) == Some(8087)
  {
    LoopbackIs("127.0.0.1:8085", "8085", 8085);
    LoopbackIs("127.0.0.1:8087", "8087", 8087);
  }

  lemma LoopbackIs(addr: string, p: string, n: int)
    requires |p| == 4 && AllDigits(p) && addr == "127.0.0.1" + ":" + p && 1 <= n <= 65535
    requires n == (p[0] as int - 48) * 1000 + (p[1] as int - 48) * 100 + (p[2] as int - 48) * 10 + (p[3] as int - 48)
    ensures ParseRelayListen(addr) == Some(("127.0.0.1", n)) && ListenPort(addr) == Some(n)
  {
    FourDigits(p, n);
    HostPortSplits("127.0.0.1", p);
  }

  lemma FourDigits(s: string, n: int)
    requires |s| == 4 && AllDigits(s)
    requires n == (s[0] as int - 48) * 1000 + (s[1] as int - 48) * 100 + (s[2] as int - 48) * 10 + (s[3] as int - 48)
    ensures Atoi(s) == Some(n)
  {
    assert s[..3][..2] == s[..2] && s[..2][..1] == s[..1] && s[..1][..0] == "";
    assert DigitsValue(s[..1]) == s[0] as int - 48;
    assert DigitsValue(s[..2]) == 10 * DigitsValue(s[..1]) + (s[1] as int - 48);
    assert DigitsValue(s[..3]) == 10 * DigitsValue(s[..2]) + (s[2] as int - 48);
  }

  lemma PluginTargets(enabled: bool, inboundTags: seq<string>, sites: seq<Site>, tag: string)
    ensures forall r :: r in PluginRules(enabled, inboundTags, sites, tag) ==> r.target == tag
    ensures PluginRules(enabled, inboundTags, sites, tag) != [] <==> enabled && HasTargets(sites, inboundTags)
  {
  }

  lemma RuleGroups(c: Config, r: Rule)
    ensures r in RulesOf(c)
            <==> r in BuiltInRules(c.routing) || r in AIRules(c) || r in RelayRules(c) || r in SpoofRules(c)
  {
  }

  lemma BuiltInResolve(c: Config, r: Rule)
    requires r in BuiltInRules(c.routing)
    ensures r.target in {"api", "direct", "block"} && Resolves(c, r)
  {
    var tags := OutboundTags(c);
    assert tags[2] == "direct" && tags[3] == "block";
  }

  lemma PluginsResolve(c: Config, r: Rule)
    requires Valid(c) && (r in RelayRules(c) || r in SpoofRules(c))
    ensures Resolves(c, r)
  {
    PluginTargets(c.relay.enabled, c.relay.inboundTags, c.relay.sites, RelayTag(c.relay));
    PluginTargets(c.sniSpoof.enabled, c.sniSpoof.inboundTags, c.sniSpoof.sites, SpoofTag(c.sniSpoof));
    if r in RelayRules(c) { ValidListenParses(RelayListen(c.relay)); }
  }

  lemma AIRulesTarget(c: Config)
    ensures forall r :: r in AIRules(c) ==> r.target == AITag(c)
    ensures AIRules(c) != [] <==> HasAIRules(c)
  {
  }

  /** For a valid configuration the rules are closed exactly when there is no AI rule or the AI tag is emitted. */
  lemma ClosedIff(c: Config)
    requires Valid(c)
    ensures Closed(c) <==> !HasAIRules(c) || AITag(c) == "api" || AITag(c) in OutboundTags(c)
  {
    AIRulesTarget(c);
    if Closed(c) && HasAIRules(c) {
      RuleGroups(c, AIRules(c)[0]);
    }
    if !HasAIRules(c) || AITag(c) == "api" || AITag(c) in OutboundTags(c) {
      forall r | r in RulesOf(c) ensures Resolves(c, r) {
        RuleGroups(c, r);
        if r in BuiltInRules(c.routing) { BuiltInResolve(c, r); }
        else if r in RelayRules(c) || r in SpoofRules(c) { PluginsResolve(c, r); }
      }
    }
  }

  /** A failover decision keeps the rules closed exactly when there is no AI rule or the tag it sets is emitted. */
  lemma FailoverClosedIff(c: Config, checks: seq<Loop.Check>)
    requires Valid(c)
    ensures var d := Loop.DesiredMode(c, checks);
            Closed(Loop.Applied(c, d)) <==> !HasAIRules(c) || d.tag == "" || d.tag == "api" || d.tag in OutboundTags(c)
  {
    var after := Loop.Applied(c, Loop.DesiredMode(c, checks));
    assert Valid(after) by { assert Ports(after) == Ports(c); }
    assert OutboundTags(after)[0] == c.proxy.tag && OutboundTags(after) == OutboundTags(c);
    ClosedIff(after);
  }

  /** The failover's fallback tag, which Validate never compares with anything, is one that traffic can be sent to. */
  ghost predicate FallbackTagResolves(c: Config) {
    c.failover.fallbackOutboundTag == "" || c.failover.fallbackOutboundTag == "api"
      || c.failover.fallbackOutboundTag in OutboundTags(c)
  }

  /** Whatever the health checks say, the rules stay closed exactly when there is no AI rule or the failover's fallback
      tag resolves. */
  lemma FailoverKeepsClosedIff(c: Config)
    requires Valid(c)
    ensures (forall checks :: Closed(Loop.Applied(c, Loop.DesiredMode(c, checks))))
            <==> !HasAIRules(c) || FallbackTagResolves(c)
  {
    assert OutboundTags(c)[0] == c.proxy.tag;
    forall checks
      ensures !HasAIRules(c) || FallbackTagResolves(c) ==> Closed(Loop.Applied(c, Loop.DesiredMode(c, checks)))
    {
      FailoverClosedIff(c, checks);
      Loop.DesiredTagIs(c, checks);
    }
    FailoverClosedIff(c, []);
    Loop.DesiredTagIs(c, []);
  }

  lemma OneTickBreaksRouting(c: Config, checks: seq<Loop.Check>)
    requires Valid(c) && Closed(c) && HasAIRules(c) && Loop.NothingHealthy(c, checks) && !FallbackTagResolves(c)
    ensures var after := Loop.Applied(c, Loop.DesiredMode(c, checks)); Valid(after) && !Closed(after)
  {
    FailoverClosedIff(c, checks);
    Loop.DesiredTagIs(c, checks);
    assert Ports(Loop.Applied(c, Loop.DesiredMode(c, checks))) == Ports(c);
  }

  const MISTYPED := Variant([], [], 1080, NO_SPOOF, "typo", ["openai.com"])

  lemma MistypedResolvesNowhere()
    ensures Valid(MISTYPED) && HasAIRules(MISTYPED) && !FallbackTagResolves(MISTYPED)
            && MISTYPED.routing.aiOutboundTag == ""
  {
    VariantIsValid([], [], 1080, NO_SPOOF, "typo", ["openai.com"]);
    assert OutboundTags(MISTYPED) == ["proxy", "fallback", "direct", "block"];
    assert "typo" !in ["proxy", "fallback", "direct", "block"];
  }

  /** A valid configuration with closed rules that one failover tick leaves valid but with a rule that leads nowhere. */
  lemma FailoverCanBreakRouting()
    ensures var after := Loop.Applied(MISTYPED, Loop.DesiredMode(MISTYPED, [Loop.Check("tun0", false)]));
            Valid(MISTYPED) && Closed(MISTYPED) && Valid(after) && !Closed(after)
  {
    MistypedResolvesNowhere();
    ClosedIff(MISTYPED);
    assert OutboundTags(MISTYPED)[0] == AITag(MISTYPED);
    OneTickBreaksRouting(MISTYPED, [Loop.Check("tun0", false)]);
  }

  /** Rules target a plugin's tag exactly when the plugin has rules of its own or the AI rules name the tag. */
  lemma TargetedIff(c: Config, tag: string, own: seq<Rule>, other: seq<Rule>)
    requires !BuiltInTag(c, tag)
    requires (forall r :: r in own ==> r.target == tag) && (forall r :: r in other ==> r.target != tag)
    requires forall r :: r in RulesOf(c) <==> r in BuiltInRules(c.routing) || r in AIRules(c) || r in own || r in other
    ensures Targeted(RulesOf(c), tag) <==> own != [] || (HasAIRules(c) && AITag(c) == tag)
  {
    AIRulesTarget(c);
    if own != [] { assert own[0] in RulesOf(c); }
    if HasAIRules(c) { assert AIRules(c)[0] in RulesOf(c); }
    forall r | r in BuiltInRules(c.routing) ensures r.target != tag { BuiltInResolve(c, r); }
  }

  /** The AI rules name the tag of a plugin that has no routed domain and no inbound of its own. */
  ghost predicate OnlyAI(c: Config, tag: string, sites: seq<Site>, inboundTags: seq<string>) {
    HasAIRules(c) && AITag(c) == tag && !HasTargets(sites, inboundTags)
  }

  /** The relay outbound is emitted exactly when the relay is enabled and some rule targets its tag, unless it is
      enabled and only AI rules target it: then there are rules and no outbound. */
  lemma RelayEmittedIffTargeted(c: Config)
    requires Valid(c)
    ensures (RelayEmitted(c) <==> c.relay.enabled && Targeted(RulesOf(c), RelayTag(c.relay)))
            <==> !(c.relay.enabled && OnlyAI(c, RelayTag(c.relay), c.relay.sites, c.relay.inboundTags))
  {
    if c.relay.enabled {
      var tag := RelayTag(c.relay);
      ValidListenParses(RelayListen(c.relay));
      PluginTargets(true, c.relay.inboundTags, c.relay.sites, tag);
      PluginTargets(c.sniSpoof.enabled, c.sniSpoof.inboundTags, c.sniSpoof.sites, SpoofTag(c.sniSpoof));
      forall r ensures r in RulesOf(c) <==>
          r in BuiltInRules(c.routing) || r in AIRules(c) || r in RelayRules(c) || r in SpoofRules(c)
      {
        RuleGroups(c, r);
      }
      TargetedIff(c, tag, RelayRules(c), SpoofRules(c));
    }
  }

  /** The same for the sni-spoof outbound. */
  lemma SpoofEmittedIffTargeted(c: Config)
    requires Valid(c)
    ensures (SpoofEmitted(c) <==> c.sniSpoof.enabled && Targeted(RulesOf(c), SpoofTag(c.sniSpoof)))
            <==> !(c.sniSpoof.enabled && OnlyAI(c, SpoofTag(c.sniSpoof), c.sniSpoof.sites, c.sniSpoof.inboundTags))
  {
    if c.sniSpoof.enabled {
      var tag := SpoofTag(c.sniSpoof);
      PluginTargets(c.relay.enabled, c.relay.inboundTags, c.relay.sites, RelayTag(c.relay));
      PluginTargets(true, c.sniSpoof.inboundTags, c.sniSpoof.sites, tag);
      forall r ensures r in RulesOf(c) <==>
          r in BuiltInRules(c.routing) || r in AIRules(c) || r in SpoofRules(c) || r in RelayRules(c)
      {
        RuleGroups(c, r);
      }
      TargetedIff(c, tag, SpoofRules(c), RelayRules(c));
    }
  }
}
