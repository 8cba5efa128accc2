/** The link list of a user, what clients read out of it, and its agreement with the compiled inbounds. */
module Agreement {
  import opened Text
  import opened Stack
  import opened Query
  import opened Links
  import opened Compile
  import opened Samples

  /** A link to offer: the parts of its display name, and what a client is to read out of its URL. */
  datatype Offer = Offer(parts: seq<string>, link: Parsed)

  ghost function Native(uuid: string, host: string, port: int, network: string, path: string, mode: string,
                        tls: bool): Parsed
  {
    Parsed(uuid, host, port, network, path, if tls then host else "", if tls then host else "", tls,
           if network == "xhttp" then mode else "")
  }

  ghost function Compat(uuid: string, host: string, port: int, path: string, mode: string, tls: bool): Parsed {
    Parsed(uuid, host, port, "splithttp", path, host, if tls then host else "", tls, mode)
  }

  ghost function EndpointMode(c: Config, ep: ClientEndpoint): string {
    if ep.network == "xhttp" && ep.mode == "" then XHTTPMode(c.inbounds) else ep.mode
  }

  ghost function EndpointOffers(c: Config, u: User, ep: ClientEndpoint): seq<Offer> {
    if !ep.enabled then []
    else
      [Offer([ep.name], Native(u.uuid, ep.host, ep.port, ep.network, ep.path, EndpointMode(c, ep), ep.tls))]
      + if ep.network == "xhttp" && ep.linkCompat
        then [Offer([ep.name, "SplitHTTP"], Compat(u.uuid, ep.host, ep.port, ep.path, EndpointMode(c, ep), ep.tls))]
        else []
  }

  ghost function AllEndpointOffers(c: Config, u: User, eps: seq<ClientEndpoint>): seq<Offer> {
    if eps == [] then []
    else AllEndpointOffers(c, u, eps[..|eps| - 1]) + EndpointOffers(c, u, eps[|eps| - 1])
  }

  ghost function DirectOffers(c: Config, u: User): seq<Offer> {
    var path, mode := XHTTPPath(c.inbounds), XHTTPMode(c.inbounds);
    [Offer(["Direct", "WS"], Native(u.uuid, c.publicIP, c.inbounds.vlessWSPort, "ws", "/vless", "", false))]
    + (if c.inbounds.vlessXHTTPPort > 0
       then [Offer(["Direct", "XHTTP"], Native(u.uuid, c.publicIP, 80, "xhttp", path, mode, false))] else [])
    + (if c.inbounds.vlessXHTTPPort > 0 && c.inbounds.xhttpLinkCompat
       then [Offer(["Direct", "SplitHTTP"], Compat(u.uuid, c.publicIP, 80, path, mode, false))] else [])
  }

  ghost function LimitedOffer(c: Config, u: User): Offer {
    Offer(["Limited"], Native(u.uuid, c.publicIP, u.bandwidthPort, "ws", "/limited/" + u.email, "", false))
  }

  /** Banned users keep their links; users disabled by hand get none. */
  ghost function Offers(c: Config, u: User): seq<Offer> {
    if !u.enabled && u.bannedUntil == 0 then []
    else if HasLimit(u) then [LimitedOffer(c, u)]
    else DirectOffers(c, u) + AllEndpointOffers(c, u, c.endpoints)
  }

  /** Every text of the configuration that goes into a link is a sequence of octets. */
  ghost predicate OctetTexts(c: Config, u: User) {
    && Octets(c.publicIP) && Octets(u.email) && Octets(c.inbounds.xhttpPath) && Octets(c.inbounds.xhttpMode)
    && forall ep ::
        ep in c.endpoints ==>
          Octets(ep.host) && Octets(ep.network) && Octets(ep.path) && Octets(ep.mode) && Octets(ep.extra)
  }

  /** The user id and the host need no escaping, and the transport is named. */
  ghost predicate Plain(p: Parsed) { Unreserved(p.uuid) && Unreserved(p.host) && p.transport != "" }

  /** A link carries the offer: its name is the title, and a client reads exactly the offer, or nothing for a negative
      port. */
  ghost predicate Carries(link: Link, o: Offer, title: seq<string> -> string) {
    && link.name == title(o.parts)
    && (Plain(o.link) ==> ParseVLESS(link.url) == if o.link.port < 0 then None else Some(o.link))
  }

  ghost predicate CarriesAll(out: seq<Link>, offers: seq<Offer>, title: seq<string> -> string) {
    |out| == |offers| && forall i :: 0 <= i < |out| ==> Carries(out[i], offers[i], title)
  }

  method NativeLink(parts: seq<string>, uuid: string, host: string, port: int, network: string, path: string,
                    mode: string, tls: bool, extra: string,
                    title: seq<string> -> string)
    returns (link: Link)
    requires LinkTexts(title(parts), host, network, path, mode, extra)
    ensures Carries(link, Offer(parts, Native(uuid, host, port, network, path, mode, tls)), title)
  {
    link := VlessLink(title(parts), uuid, host, port, network, path, mode, tls, extra);
    if Plain(Native(uuid, host, port, network, path, mode, tls)) {
      VlessLinkRoundTrip(title(parts), uuid, host, port, network, path, mode, tls, extra);
    }
  }

  method CompatLink(parts: seq<string>, uuid: string, host: string, port: int, path: string, mode: string, tls: bool,
                    title: seq<string> -> string)
    returns (link: Link)
    requires LinkTexts(title(parts), host, "", path, mode, "")
    ensures Carries(link, Offer(parts, Compat(uuid, host, port, path, mode, tls)), title)
  {
    link := SplitHTTPCompatLink(title(parts), uuid, host, port, path, mode, tls);
    if Plain(Compat(uuid, host, port, path, mode, tls)) {
      CompatLinkRoundTrip(title(parts), uuid, host, port, path, mode, tls);
    }
  }

  method DirectLinks(c: Config, u: User, title: seq<string> -> string) returns (out: seq<Link>)
    requires OctetTexts(c, u) && forall parts :: Octets(title(parts))
    ensures CarriesAll(out, DirectOffers(c, u), title)
  {
    var host, path, mode := c.publicIP, XHTTPPath(c.inbounds), XHTTPMode(c.inbounds);
    var link := NativeLink(["Direct", "WS"], u.uuid, host, c.inbounds.vlessWSPort, "ws", "/vless", "", false, "",
                           title);
    out := [link];
    if c.inbounds.vlessXHTTPPort > 0 {
      link := NativeLink(["Direct", "XHTTP"], u.uuid, host, 80, "xhttp", path, mode, false, "", title);
      out := out + [link];
      if c.inbounds.xhttpLinkCompat {
        link := CompatLink(["Direct", "SplitHTTP"], u.uuid, host, 80, path, mode, false, title);
        out := out + [link];
      }
    }
  }

  method EndpointLinks(c: Config, u: User, ep: ClientEndpoint, title: seq<string> -> string) returns (out: seq<Link>)
    requires OctetTexts(c, u) && ep in c.endpoints && forall parts :: Octets(title(parts))
    ensures CarriesAll(out, EndpointOffers(c, u, ep), title)
  {
    if !ep.enabled { return []; }
    var mode := ep.mode;
    if ep.network == "xhttp" && mode == "" { mode := XHTTPMode(c.inbounds); }
    var link := NativeLink([ep.name], u.uuid, ep.host, ep.port, ep.network, ep.path, mode, ep.tls, ep.extra, title);
    out := [link];
    if ep.network == "xhttp" && ep.linkCompat {
      link := CompatLink([ep.name, "SplitHTTP"], u.uuid, ep.host, ep.port, ep.path, mode, ep.tls, title);
      out := out + [link];
    }
  }

  lemma CarriesConcat(a: seq<Link>, x: seq<Offer>, b: seq<Link>, y: seq<Offer>, title: seq<string> -> string)
    requires CarriesAll(a, x, title) && CarriesAll(b, y, title)
    ensures CarriesAll(a + b, x + y, title)
  {
  }

  lemma OneMoreEndpoint(c: Config, u: User, eps: seq<ClientEndpoint>, i: nat)
    requires i < |eps|
    ensures AllEndpointOffers(c, u, eps[..i + 1]) == AllEndpointOffers(c, u, eps[..i]) + EndpointOffers(c, u, eps[i])
  {
    assert eps[..i + 1][..i] == eps[..i];
  }

  method EndpointLinksOf(c: Config, u: User, title: seq<string> -> string) returns (out: seq<Link>)
    requires OctetTexts(c, u) && forall parts :: Octets(title(parts))
    ensures CarriesAll(out, AllEndpointOffers(c, u, c.endpoints), title)
  {
    out := [];
    ghost var offers: seq<Offer> := [];
    for i := 0 to |c.endpoints|
      invariant CarriesAll(out, offers, title) && offers == AllEndpointOffers(c, u, c.endpoints[..i])
    {
      var more := EndpointLinks(c, u, c.endpoints[i], title);
      OneMoreEndpoint(c, u, c.endpoints, i);
      CarriesConcat(out, offers, more, EndpointOffers(c, u, c.endpoints[i]), title);
      offers := offers + EndpointOffers(c, u, c.endpoints[i]);
      out := out + more;
    }
    assert c.endpoints[..|c.endpoints|] == c.endpoints;
  }

  /** The link list of a user, in order: clients read exactly the offers out of it. */
  method VLESS(c: Config, u: User, title: seq<string> -> string) returns (out: seq<Link>)
    requires OctetTexts(c, u) && forall parts :: Octets(title(parts))
    ensures CarriesAll(out, Offers(c, u), title)
  {
    if !u.enabled && u.bannedUntil == 0 { return []; }
    if u.bandwidthPort > 0 && (u.downloadMbps > 0 || u.uploadMbps > 0) {
      var link := NativeLink(["Limited"], u.uuid, c.publicIP, u.bandwidthPort, "ws", "/limited/" + u.email, "",
                             false, "", title);
      return [link];
    }
    out := DirectLinks(c, u, title);
    var more := EndpointLinksOf(c, u, title);
    CarriesConcat(out, DirectOffers(c, u), more, AllEndpointOffers(c, u, c.endpoints), title);
    out := out + more;
  }

  // ---- which links there are ----

  /** A client that imports the offer connects with the user's id to this host, port and path, over TLS under the
      host's name or without. */
  ghost predicate ConnectsTo(p: Parsed, u: User, host: string, port: int, path: string, tls: bool) {
    && p.uuid == u.uuid && p.host == host && p.port == port && p.path == path
    && p.tls == tls && p.sni == (if tls then host else "")
  }

  /** The xhttp mode of an endpoint: its own, else that of the xhttp inbound, else "auto". */
  ghost predicate ModeOf(c: Config, ep: ClientEndpoint, mode: string) {
    if ep.mode != "" then mode == ep.mode
    else if c.inbounds.xhttpMode != "" then mode == c.inbounds.xhttpMode
    else mode == "auto"
  }

  /** The offer is the endpoint's, natively or under the compatibility transport. */
  ghost predicate IsEndpoint(o: Offer, c: Config, u: User, ep: ClientEndpoint, compat: bool) {
    && ConnectsTo(o.link, u, ep.host, ep.port, ep.path, ep.tls)
    && o.parts == (if compat then [ep.name, "SplitHTTP"] else [ep.name])
    && (compat ==> ep.network == "xhttp" && ep.linkCompat && o.link.transport == "splithttp")
    && (!compat ==> o.link.transport == ep.network)
    && (if ep.network == "xhttp" then ModeOf(c, ep, o.link.mode) else o.link.mode == "")
  }

  ghost predicate OfEndpoints(o: Offer, c: Config, u: User, eps: seq<ClientEndpoint>) {
    exists ep, compat :: ep in eps && ep.enabled && IsEndpoint(o, c, u, ep, compat)
  }

  lemma EndpointOffersAre(c: Config, u: User, ep: ClientEndpoint)
    ensures forall o :: o in EndpointOffers(c, u, ep) ==> ep.enabled && exists compat :: IsEndpoint(o, c, u, ep, compat)
    ensures ep.enabled ==> exists o :: o in EndpointOffers(c, u, ep) && IsEndpoint(o, c, u, ep, false)
    ensures ep.enabled && ep.network == "xhttp" && ep.linkCompat ==>
              exists o :: o in EndpointOffers(c, u, ep) && IsEndpoint(o, c, u, ep, true)
  {
    var offers := EndpointOffers(c, u, ep);
    if ep.enabled {
      assert IsEndpoint(offers[0], c, u, ep, false);
      if ep.network == "xhttp" && ep.linkCompat { assert IsEndpoint(offers[1], c, u, ep, true); }
    }
  }

  lemma {:induction false} AllOffersAreOfEndpoints(c: Config, u: User, eps: seq<ClientEndpoint>)
    ensures forall o :: o in AllEndpointOffers(c, u, eps) ==> OfEndpoints(o, c, u, eps)
  {
    if eps == [] {
    } else {
      var last := eps[|eps| - 1];
      AllOffersAreOfEndpoints(c, u, eps[..|eps| - 1]);
      EndpointOffersAre(c, u, last);
      forall o | o in AllEndpointOffers(c, u, eps) ensures OfEndpoints(o, c, u, eps) {
        if o in AllEndpointOffers(c, u, eps[..|eps| - 1]) {
          var ep, compat :| ep in eps[..|eps| - 1] && ep.enabled && IsEndpoint(o, c, u, ep, compat);
          assert ep in eps;
        } else {
          assert last in eps;
        }
      }
    }
  }

  lemma {:induction false} EndpointsAreOffered(c: Config, u: User, eps: seq<ClientEndpoint>, ep: ClientEndpoint)
    requires ep in eps
    ensures forall o :: o in EndpointOffers(c, u, ep) ==> o in AllEndpointOffers(c, u, eps)
  {
    if eps[|eps| - 1] == ep {
    } else {
      assert eps == eps[..|eps| - 1] + [eps[|eps| - 1]];
      EndpointsAreOffered(c, u, eps[..|eps| - 1], ep);
    }
  }

  /** A limited user has the one link to the own port. Any other user has a link to every enabled endpoint, and a second
      one where the compatibility transport is asked for. */
  lemma EnabledEndpointsAreOffered(c: Config, u: User, ep: ClientEndpoint)
    requires u.enabled || u.bannedUntil != 0
    requires ep in c.endpoints && ep.enabled
    ensures u.bandwidthPort > 0 && (u.downloadMbps > 0 || u.uploadMbps > 0) ==>
              |Offers(c, u)| == 1 && Offers(c, u)[0].link.port == u.bandwidthPort
    ensures u.bandwidthPort <= 0 || (u.downloadMbps <= 0 && u.uploadMbps <= 0) ==>
              && (exists o :: o in Offers(c, u) && IsEndpoint(o, c, u, ep, false))
              && (ep.network == "xhttp" && ep.linkCompat ==>
                    exists o :: o in Offers(c, u) && IsEndpoint(o, c, u, ep, true))
  {
    EndpointOffersAre(c, u, ep);
    EndpointsAreOffered(c, u, c.endpoints, ep);
  }

  /** No link is made up: behind the direct ones, as many as the xhttp settings ask for, each is that of an enabled
      endpoint, and a user disabled by hand has none. */
  lemma OffersAre(c: Config, u: User, i: nat)
    requires i < |Offers(c, u)|
    ensures u.enabled || u.bannedUntil != 0
    ensures u.bandwidthPort <= 0 || (u.downloadMbps <= 0 && u.uploadMbps <= 0) ==>
              var (o, x) := (Offers(c, u)[i], c.inbounds.vlessXHTTPPort > 0);
              if i == 0 then
                ConnectsTo(o.link, u, c.publicIP, c.inbounds.vlessWSPort, "/vless", false) && o.link.transport == "ws"
              else if x && i == 1 then
                ConnectsTo(o.link, u, c.publicIP, 80, OrDefault(c.inbounds.xhttpPath, "/xhttp"), false)
                && o.link.transport == "xhttp"
              else if x && c.inbounds.xhttpLinkCompat && i == 2 then
                ConnectsTo(o.link, u, c.publicIP, 80, OrDefault(c.inbounds.xhttpPath, "/xhttp"), false)
                && o.link.transport == "splithttp"
              else OfEndpoints(o, c, u, c.endpoints)
  {
    AllOffersAreOfEndpoints(c, u, c.endpoints);
    if !HasLimit(u) {
      var d := |DirectOffers(c, u)|;
      if i >= d { assert Offers(c, u)[i] == AllEndpointOffers(c, u, c.endpoints)[i - d]; }
    }
  }

  // ---- agreement with the compiled inbounds ----

  /** Inbound `k` listens on every address, at the port and path the link names. */
  ghost predicate AtAddress(c: Config, k: nat, p: Parsed) {
    && k < |InboundsOf(c)|
    && var i := InboundsOf(c)[k];
       i.listen == "0.0.0.0" && i.port == p.port && i.network == p.transport && i.path == p.path
  }

  lemma WebSocketShape(c: Config, k: nat)
    requires k < |InboundsOf(c)| && InboundsOf(c)[k].network == "ws"
    ensures k == WS_INDEX || IsOwnIndex(c, k)
  {
  }

  lemma LimitedPathsDiffer(email: string, other: string)
    ensures "/vless" != "/limited/" + email
    ensures "/limited/" + email == "/limited/" + other ==> email == other
  {
    assert "/vless"[1] == 'v' && ("/limited/" + email)[1] == 'l';
    assert ("/limited/" + email)[9..] == email && ("/limited/" + other)[9..] == other;
  }

  /** The inbounds a user's first link leads to: the user's own one, or the shared WebSocket one. */
  lemma AddressIs(c: Config, u: User, k: nat)
    requires Valid(c) && u in c.users && Offers(c, u) != [] && AtAddress(c, k, Offers(c, u)[0].link)
    ensures HasLimit(u) ==> IsOwnIndex(c, k) && LimitedUsers(c.users)[k - OwnIndex(c, 0)] == u
    ensures !HasLimit(u) ==> k == WS_INDEX
  {
    WebSocketShape(c, k);
    InboundShape(c, k);
    LimitedPathsDiffer(u.email, u.email);
    if IsOwnIndex(c, k) {
      var v := LimitedUsers(c.users)[k - OwnIndex(c, 0)];
      assert v in LimitedUsers(c.users);
      LimitedPathsDiffer(v.email, u.email);
      if v.email == u.email { SameEmailSameUser(c.users, u, v); }
    }
  }

  /** The id of a user's first link is let in at the address of that link exactly when some user served there carries
      it: the user, for a limited link, and any enabled user without a limit, for a direct one. */
  lemma FirstLinkAdmitsIff(c: Config, u: User)
    requires Valid(c) && u in c.users && Offers(c, u) != []
    ensures (exists k: nat :: AtAddress(c, k, Offers(c, u)[0].link) && AdmitsId(c, k, Offers(c, u)[0].link.uuid))
            <==> if HasLimit(u) then u.enabled else exists v :: v in c.users && IsShared(v) && v.uuid == u.uuid
  {
    var p := Offers(c, u)[0].link;
    if k: nat :| AtAddress(c, k, p) && AdmitsId(c, k, p.uuid) {
      AddressIs(c, u, k);
      AdmitsIdIff(c, k, p.uuid);
      var v :| v in c.users && v.uuid == p.uuid && Serves(c, k, v);
      assert HasLimit(u) ==> u in LimitedUsers(c.users);
    }
    if IsLimited(u) {
      var own := LimitedHasOwn(c, u);
      assert Admits(c, own, u) && ClientOf(u).id == p.uuid;
      assert AtAddress(c, own, p) && AdmitsId(c, own, p.uuid);
    }
    if v :| !HasLimit(u) && v in c.users && IsShared(v) && v.uuid == u.uuid {
      InboundShape(c, WS_INDEX);
      AdmitsIdIff(c, WS_INDEX, u.uuid);
      assert Serves(c, WS_INDEX, v);
      assert AtAddress(c, WS_INDEX, p) && AdmitsId(c, WS_INDEX, p.uuid);
    }
  }

  /** With distinct ids links and inbounds agree: the id of a user without links is let in nowhere, and the first link
      of any other user leads to an inbound that lets the user in exactly when the user is enabled. */
  lemma FirstLinkAdmitsIffEnabled(c: Config, u: User)
    requires Valid(c) && DistinctIds(c.users) && u in c.users
    ensures Offers(c, u) == [] ==> forall k: nat :: !AdmitsId(c, k, u.uuid)
    ensures Offers(c, u) != [] ==>
              ((exists k: nat :: AtAddress(c, k, Offers(c, u)[0].link) && AdmitsId(c, k, Offers(c, u)[0].link.uuid))
               <==> u.enabled)
  {
    if Offers(c, u) == [] {
      AdmissionIs(c, u);
      forall k: nat ensures !AdmitsId(c, k, u.uuid) { IdMeansUser(c, k, u); }
    } else {
      FirstLinkAdmitsIff(c, u);
    }
  }

  const TWINS := [ALICE, BOB.(uuid := ALICE.uuid, enabled := false)]

  /** A valid configuration that lets in the id of a disabled user without links, because an enabled one shares it. */
  lemma SharedIdAdmitsTheDisabled()
    ensures var c := Variant(TWINS, [], 1080, NO_SPOOF, "", []);
            Valid(c) && Offers(c, TWINS[1]) == [] && AdmitsId(c, WS_INDEX, TWINS[1].uuid)
  {
    var c := Variant(TWINS, [], 1080, NO_SPOOF, "", []);
    assert UserPorts(TWINS) == [0, 0];
    VariantIsValid(TWINS, [], 1080, NO_SPOOF, "", []);
    AdmitsIdIff(c, WS_INDEX, ALICE.uuid);
    assert TWINS[0] in c.users && Serves(c, WS_INDEX, TWINS[0]);
  }

  lemma SecondOffer(c: Config, u: User)
    requires c.inbounds.vlessXHTTPPort > 0 && !HasLimit(u) && Offers(c, u) != []
    ensures |Offers(c, u)| > 1
    ensures Offers(c, u)[1].link
            == Native(u.uuid, c.publicIP, 80, "xhttp", XHTTPPath(c.inbounds), XHTTPMode(c.inbounds), false)
  {
    assert DirectOffers(c, u)[1].link
      == Native(u.uuid, c.publicIP, 80, "xhttp", XHTTPPath(c.inbounds), XHTTPMode(c.inbounds), false);
  }

  lemma XHTTPShape(c: Config)
    ensures XHTTPIndex(c) < |InboundsOf(c)| && InboundsOf(c)[XHTTPIndex(c)] == XHTTPInbound(c, SharedClients(c.users))
  {
  }

  /** The direct xhttp link, offered when the xhttp port is set, has the path and mode of the local xhttp inbound behind
      port 80, which lets in its id exactly when some enabled user without a limit carries it. */
  lemma XHTTPLinkAgrees(c: Config, u: User)
    requires Valid(c) && u in c.users && c.inbounds.vlessXHTTPPort > 0 && !HasLimit(u) && Offers(c, u) != []
    ensures |Offers(c, u)| > 1
    ensures var k, p := XHTTPIndex(c), Offers(c, u)[1].link;
            && k < |InboundsOf(c)| && InboundsOf(c)[k].path == p.path && InboundsOf(c)[k].network == p.transport
            && InboundsOf(c)[k].port == c.inbounds.vlessXHTTPPort && p.port == 80 && p.mode == InboundsOf(c)[k].mode
            && (AdmitsId(c, k, p.uuid) <==> exists v :: v in c.users && IsShared(v) && v.uuid == u.uuid)
  {
    var k := XHTTPIndex(c);
    SecondOffer(c, u);
    XHTTPShape(c);
    AdmitsIdIff(c, k, u.uuid);
    if v :| v in c.users && v.uuid == u.uuid && IsShared(v) { assert Serves(c, k, v); }
  }
}
