/** Where the routing rules send traffic: the first rule that covers a flow decides. */
module RoutingFlows {
  import opened Text
  import opened Stack
  import opened Compile
  import opened RoutingRules
  import Loop = FailoverLoop

  /** A flow as the rules see it: where it came in, which of the listed domain and address patterns cover its
      destination, and whether it is UDP to port 443. */
  datatype Flow = Flow(inbound: string, domains: set<string>, ips: set<string>, udp443: bool)

  ghost predicate Hits(listed: seq<string>, covering: set<string>) { exists d :: d in listed && d in covering }

  ghost predicate Matches(s: Selector, f: Flow) {
    match s
    case InboundTags(tags) => f.inbound in tags
    case Domains(domains) => Hits(domains, f.domains)
    case IPs(ips) => Hits(ips, f.ips)
    case UDP443 => f.udp443
  }

  /** The target of the first matching rule; None leaves the flow to the default outbound. */
  ghost function Verdict(rules: seq<Rule>, f: Flow): Option<string> {
    if rules == [] then None
    else if Matches(rules[0].selector, f) then Some(rules[0].target)
    else Verdict(rules[1..], f)
  }

  lemma {:induction false} VerdictConcat(a: seq<Rule>, b: seq<Rule>, f: Flow)
    ensures Verdict(a + b, f) == if Verdict(a, f).Some? then Verdict(a, f) else Verdict(b, f)
  {
    if a == [] {
      assert a + b == b;
    } else {
      assert (a + b)[0] == a[0] && (a + b)[1..] == a[1..] + b;
      VerdictConcat(a[1..], b, f);
    }
  }

  // ---- what a flow is, in terms of the configuration alone ----

  ghost predicate FromAPI(f: Flow) { f.inbound == "xray-api" }

  ghost predicate Refused(c: Config, f: Flow) { c.routing.blockUDP443 && f.udp443 }

  ghost predicate Direct(c: Config, f: Flow) {
    Hits(c.routing.directDomains, f.domains) || Hits(c.routing.directIPs, f.ips)
  }

  ghost predicate Blocked(c: Config, f: Flow) {
    || Hits(c.routing.blockDomains, f.domains) || Hits(c.routing.blockIPs, f.ips)
    || Hits(c.routing.manualBlockDomains, f.domains)
  }

  ghost predicate ForAI(c: Config, f: Flow) {
    Hits(c.routing.aiUpdateDomains, f.domains) || Hits(c.routing.aiDomains, f.domains)
  }

  ghost predicate ForSites(sites: seq<Site>, inboundTags: seq<string>, f: Flow) {
    || f.inbound in inboundTags
    || exists s :: s in sites && s.enabled && s.domain != "" && s.domain in f.domains
  }

  ghost predicate ForRelay(c: Config, f: Flow) {
    c.relay.enabled && ForSites(c.relay.sites, c.relay.inboundTags, f)
  }

  ghost predicate ForSpoof(c: Config, f: Flow) {
    c.sniSpoof.enabled && ForSites(c.sniSpoof.sites, c.sniSpoof.inboundTags, f)
  }

  // ---- the groups of rules, one at a time ----

  lemma DomainVerdict(domains: seq<string>, target: string, f: Flow)
    ensures Verdict(DomainRule(domains, target), f) == if Hits(domains, f.domains) then Some(target) else None
  {
  }

  lemma IPVerdict(ips: seq<string>, target: string, f: Flow)
    ensures Verdict(IPRule(ips, target), f) == if Hits(ips, f.ips) then Some(target) else None
  {
  }

  lemma PairVerdict(a: seq<Rule>, b: seq<Rule>, f: Flow, p: bool, q: bool, target: string)
    requires Verdict(a, f) == (if p then Some(target) else None)
    requires Verdict(b, f) == (if q then Some(target) else None)
    ensures Verdict(a + b, f) == if p || q then Some(target) else None
  {
    VerdictConcat(a, b, f);
  }

  function DirectRules(r: Routing): seq<Rule> { DomainRule(r.directDomains, "direct") + IPRule(r.directIPs, "direct") }

  function BlockRules(r: Routing): seq<Rule> {
    DomainRule(r.blockDomains, "block") + IPRule(r.blockIPs, "block") + DomainRule(r.manualBlockDomains, "block")
  }

  function FirstRules(r: Routing): seq<Rule> {
    [Rule(InboundTags(["xray-api"]), "api")] + (if r.blockUDP443 then [Rule(UDP443, "block")] else [])
  }

  lemma FirstVerdict(c: Config, f: Flow)
    ensures FromAPI(f) ==> Verdict(FirstRules(c.routing), f) == Some("api")
    ensures !FromAPI(f) ==> Verdict(FirstRules(c.routing), f) == if Refused(c, f) then Some("block") else None
  {
    var api := Rule(InboundTags(["xray-api"]), "api");
    assert FirstRules(c.routing)[0] == api;
    VerdictConcat([api], if c.routing.blockUDP443 then [Rule(UDP443, "block")] else [], f);
  }

  lemma DirectVerdict(c: Config, f: Flow)
    ensures Verdict(DirectRules(c.routing), f) == if Direct(c, f) then Some("direct") else None
  {
    DomainVerdict(c.routing.directDomains, "direct", f);
    IPVerdict(c.routing.directIPs, "direct", f);
    PairVerdict(DomainRule(c.routing.directDomains, "direct"), IPRule(c.routing.directIPs, "direct"), f,
                Hits(c.routing.directDomains, f.domains), Hits(c.routing.directIPs, f.ips), "direct");
  }

  lemma BlockVerdict(c: Config, f: Flow)
    ensures Verdict(BlockRules(c.routing), f) == if Blocked(c, f) then Some("block") else None
  {
    var r := c.routing;
    DomainVerdict(r.blockDomains, "block", f);
    IPVerdict(r.blockIPs, "block", f);
    DomainVerdict(r.manualBlockDomains, "block", f);
    PairVerdict(DomainRule(r.blockDomains, "block"), IPRule(r.blockIPs, "block"), f,
                Hits(r.blockDomains, f.domains), Hits(r.blockIPs, f.ips), "block");
    PairVerdict(DomainRule(r.blockDomains, "block") + IPRule(r.blockIPs, "block"),
                DomainRule(r.manualBlockDomains, "block"), f,
                Hits(r.blockDomains, f.domains) || Hits(r.blockIPs, f.ips), Hits(r.manualBlockDomains, f.domains),
                "block");
  }

  lemma AIVerdict(c: Config, f: Flow)
    ensures Verdict(AIRules(c), f) == if ForAI(c, f) then Some(AITag(c)) else None
  {
    DomainVerdict(c.routing.aiUpdateDomains, AITag(c), f);
    DomainVerdict(c.routing.aiDomains, AITag(c), f);
    PairVerdict(DomainRule(c.routing.aiUpdateDomains, AITag(c)), DomainRule(c.routing.aiDomains, AITag(c)), f,
                Hits(c.routing.aiUpdateDomains, f.domains), Hits(c.routing.aiDomains, f.domains), AITag(c));
  }

  lemma PluginVerdict(enabled: bool, inboundTags: seq<string>, sites: seq<Site>, tag: string, f: Flow)
    ensures Verdict(PluginRules(enabled, inboundTags, sites, tag), f)
         == if enabled && ForSites(sites, inboundTags, f) then Some(tag) else None
  {
    if enabled {
      var byInbound := if |inboundTags| > 0 then [Rule(InboundTags(inboundTags), tag)] else [];
      assert Verdict(byInbound, f) == if f.inbound in inboundTags then Some(tag) else None;
      DomainVerdict(RoutedDomains(sites), tag, f);
      PairVerdict(byInbound, DomainRule(RoutedDomains(sites), tag), f,
                  f.inbound in inboundTags, Hits(RoutedDomains(sites), f.domains), tag);
      RoutedHits(sites, f.domains);
    }
  }

  lemma RoutedHits(sites: seq<Site>, covering: set<string>)
    ensures Hits(RoutedDomains(sites), covering)
            <==> exists s :: s in sites && s.enabled && s.domain != "" && s.domain in covering
  {
    forall d ensures d in RoutedDomains(sites) <==> d != "" && exists s :: s in sites && s.enabled && s.domain == d {
      RoutedDomainsAre(sites, d);
    }
  }

  // ---- all of them ----

  lemma Regroup<T>(a: seq<T>, b: seq<T>, c: seq<T>, d: seq<T>, e: seq<T>)
    ensures a + b + c + d + e == a + ((b + c) + (d + e))
  {
  }

  lemma BuiltInGroups(r: Routing)
    ensures BuiltInRules(r) == FirstRules(r) + (DirectRules(r) + BlockRules(r))
  {
    var blockDomains := DomainRule(r.blockDomains, "block") + IPRule(r.blockIPs, "block");
    Regroup(FirstRules(r), DomainRule(r.directDomains, "direct"), IPRule(r.directIPs, "direct"), blockDomains,
            DomainRule(r.manualBlockDomains, "block"));
    var head := FirstRules(r) + DomainRule(r.directDomains, "direct") + IPRule(r.directIPs, "direct");
    Assoc(head, DomainRule(r.blockDomains, "block"), IPRule(r.blockIPs, "block"));
  }

  lemma BuiltInVerdict(c: Config, f: Flow)
    ensures FromAPI(f) ==> Verdict(BuiltInRules(c.routing), f) == Some("api")
    ensures !FromAPI(f) ==>
              Verdict(BuiltInRules(c.routing), f) ==
              if Refused(c, f) then Some("block")
              else if Direct(c, f) then Some("direct")
              else if Blocked(c, f) then Some("block")
              else None
  {
    var (first, direct, block) := (FirstRules(c.routing), DirectRules(c.routing), BlockRules(c.routing));
    BuiltInGroups(c.routing);
    FirstVerdict(c, f);
    DirectVerdict(c, f);
    BlockVerdict(c, f);
    VerdictConcat(direct, block, f);
    VerdictConcat(first, direct + block, f);
  }

  lemma LaterVerdict(c: Config, f: Flow)
    ensures Verdict(AIRules(c) + (RelayRules(c) + SpoofRules(c)), f) ==
            if ForAI(c, f) then Some(AITag(c))
            else if ForRelay(c, f) then Some(RelayTag(c.relay))
            else if ForSpoof(c, f) then Some(SpoofTag(c.sniSpoof))
            else None
  {
    AIVerdict(c, f);
    PluginVerdict(c.relay.enabled, c.relay.inboundTags, c.relay.sites, RelayTag(c.relay), f);
    PluginVerdict(c.sniSpoof.enabled, c.sniSpoof.inboundTags, c.sniSpoof.sites, SpoofTag(c.sniSpoof), f);
    VerdictConcat(RelayRules(c), SpoofRules(c), f);
    VerdictConcat(AIRules(c), RelayRules(c) + SpoofRules(c), f);
  }

  lemma RulesVerdict(c: Config, f: Flow)
    ensures var (built, later) := (Verdict(BuiltInRules(c.routing), f),
                                   Verdict(AIRules(c) + (RelayRules(c) + SpoofRules(c)), f));
            Verdict(RulesOf(c), f) == if built.Some? then built else later
  {
    Assoc(BuiltInRules(c.routing) + AIRules(c), RelayRules(c), SpoofRules(c));
    Assoc(BuiltInRules(c.routing), AIRules(c), RelayRules(c) + SpoofRules(c));
    VerdictConcat(BuiltInRules(c.routing), AIRules(c) + (RelayRules(c) + SpoofRules(c)), f);
  }

  /** No rule before those of the AI lists covers the flow. */
  ghost predicate Unclaimed(c: Config, f: Flow) {
    !FromAPI(f) && !Refused(c, f) && !Direct(c, f) && !Blocked(c, f)
  }

  /** The fate of the traffic that the operator has named: it goes direct if it is listed as direct, is blocked if
      it is listed as blocked and not also as direct, and QUIC is refused, when that is asked for, before either. */
  lemma NamedTrafficIs(c: Config, f: Flow)
    ensures FromAPI(f) ==> Verdict(RulesOf(c), f) == Some("api")
    ensures !FromAPI(f) && Refused(c, f) ==> Verdict(RulesOf(c), f) == Some("block")
    ensures !FromAPI(f) && !Refused(c, f) && Direct(c, f) ==> Verdict(RulesOf(c), f) == Some("direct")
    ensures !FromAPI(f) && !Refused(c, f) && !Direct(c, f) && Blocked(c, f) ==>
              Verdict(RulesOf(c), f) == Some("block")
  {
    BuiltInVerdict(c, f);
    RulesVerdict(c, f);
  }

  /** The fate of all other traffic: the AI lists come first, then the relay, then sni-spoof; what none of them names
      matches no rule. */
  lemma OtherTrafficIs(c: Config, f: Flow)
    requires Unclaimed(c, f)
    ensures ForAI(c, f) ==>
              Verdict(RulesOf(c), f) ==
              Some(if c.routing.aiOutboundTag == "" then c.proxy.tag else c.routing.aiOutboundTag)
    ensures !ForAI(c, f) && ForRelay(c, f) ==>
              Verdict(RulesOf(c), f) == Some(if c.relay.outboundTag == "" then "relay-mhrv" else c.relay.outboundTag)
    ensures !ForAI(c, f) && !ForRelay(c, f) && ForSpoof(c, f) ==>
              Verdict(RulesOf(c), f) ==
              Some(if c.sniSpoof.outboundTag == "" then "sni-spoof" else c.sniSpoof.outboundTag)
    ensures !ForAI(c, f) && !ForRelay(c, f) && !ForSpoof(c, f) ==> Verdict(RulesOf(c), f) == None
  {
    BuiltInVerdict(c, f);
    LaterVerdict(c, f);
    RulesVerdict(c, f);
  }

  /** Whatever failover applies moves the AI traffic and nothing else: that goes to the tag applied, or to the proxy for
      an empty one. */
  lemma FailoverMovesAITraffic(c: Config, m: Loop.Mode, f: Flow)
    ensures var after := Verdict(RulesOf(Loop.Applied(c, m)), f);
            if Unclaimed(c, f) && ForAI(c, f) then after == Some(if m.tag == "" then c.proxy.tag else m.tag)
            else after == Verdict(RulesOf(c), f)
  {
    var d := Loop.Applied(c, m);
    BuiltInVerdict(c, f);
    BuiltInVerdict(d, f);
    LaterVerdict(c, f);
    LaterVerdict(d, f);
    RulesVerdict(c, f);
    RulesVerdict(d, f);
  }
}
