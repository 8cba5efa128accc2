/** The xray configuration compiled from a stack configuration: inbounds, outbound tags and routing rules. */
module Compile {
  import opened Text
  import opened Stack

  datatype Client = Client(id: string, email: string)

  /** `account` is the user name and password that a SOCKS inbound asks for; None for one that asks for nothing. */
  datatype Inbound = Inbound(
    tag: string, port: int, listen: string, protocol: string, clients: seq<Client>, network: string, path: string,
    mode: string, account: Option<(string, string)>)

  datatype Selector = InboundTags(tags: seq<string>) | Domains(domains: seq<string>) | IPs(ips: seq<string>) | UDP443

  datatype Rule = Rule(selector: Selector, target: string)

  // ---- inbounds ----

  /** The user has a bandwidth port and at least one rate. */
  predicate HasLimit(u: User) { u.bandwidthPort > 0 && (u.downloadMbps > 0 || u.uploadMbps > 0) }

  predicate IsLimited(u: User) { u.enabled && HasLimit(u) }

  predicate IsShared(u: User) { u.enabled && !HasLimit(u) }

  function LimitedUsers(users: seq<User>): (r: seq<User>)
    ensures forall u :: u in r <==> u in users && IsLimited(u)
  {
    if users == [] then [] else IfLimited(users[0]) + LimitedUsers(users[1..])
  }

  function ClientOf(u: User): Client { Client(u.uuid, u.email) }

  ghost function SharedClients(users: seq<User>): (r: seq<Client>)
    ensures forall c :: c in r <==> exists u :: u in users && IsShared(u) && c == ClientOf(u)
  {
    if users == [] then [] else
      var rest := SharedClients(users[1..]);
      assert forall u :: u in users <==> u == users[0] || u in users[1..];
      if IsShared(users[0]) then [ClientOf(users[0])] + rest else rest
  }

  function WSInbound(c: Config, clients: seq<Client>): Inbound {
    Inbound("vless-public", c.inbounds.vlessWSPort, "0.0.0.0", "vless", clients, "ws", "/vless", "", None)
  }

  function SOCKSInboundOf(s: SOCKSInbound): Inbound {
    Inbound("managed-socks-" + s.name, s.port, s.listen, "socks", [], "", "", "", Some((s.username, s.password)))
  }

  function LimitedInbound(u: User): Inbound {
    Inbound("limited-" + u.email, u.bandwidthPort, "0.0.0.0", "vless", [ClientOf(u)], "ws", "/limited/" + u.email,
        "", None)
  }

  function LocalPort(c: Config): int { if c.inbounds.localSOCKSPort == 0 then 10808 else c.inbounds.localSOCKSPort }

  function APIPort(c: Config): int { if c.apiPort == 0 then 10085 else c.apiPort }

  function XHTTPInbound(c: Config, clients: seq<Client>): Inbound {
    Inbound("vless-xhttp-local", c.inbounds.vlessXHTTPPort, "127.0.0.1", "vless", clients, "xhttp",
            XHTTPPath(c.inbounds), XHTTPMode(c.inbounds), None)
  }

  function TailInbounds(c: Config, clients: seq<Client>): seq<Inbound> {
    [Inbound("", LocalPort(c), "127.0.0.1", "socks", [], "", "", "", None), XHTTPInbound(c, clients),
     Inbound("xray-api", APIPort(c), "127.0.0.1", "dokodemo-door", [], "", "", "", None)]
  }

  ghost function LimitedInbounds(users: seq<User>): seq<Inbound> {
    var l := LimitedUsers(users); seq(|l|, i requires 0 <= i < |l| => LimitedInbound(l[i]))
  }

  ghost function SOCKSInbounds(socks: seq<SOCKSInbound>): seq<Inbound> {
    seq(|socks|, i requires 0 <= i < |socks| => SOCKSInboundOf(socks[i]))
  }

  ghost function InboundsOf(c: Config): seq<Inbound> {
    [WSInbound(c, SharedClients(c.users))] + SOCKSInbounds(c.inbounds.publicSOCKS) + LimitedInbounds(c.users)
    + TailInbounds(c, SharedClients(c.users))
  }

  lemma Assoc<T>(a: seq<T>, b: seq<T>, c: seq<T>)
    ensures a + (b + c) == a + b + c
  {
  }

  function IfLimited(u: User): seq<User> { if IsLimited(u) then [u] else [] }

  lemma LimitedUsersCons(users: seq<User>)
    requires users != []
    ensures LimitedUsers(users) == IfLimited(users[0]) + LimitedUsers(users[1..])
  {
  }

  lemma {:induction false} LimitedUsersAppend(a: seq<User>, u: User)
    ensures LimitedUsers(a + [u]) == LimitedUsers(a) + IfLimited(u)
  {
    var all := a + [u];
    LimitedUsersCons(all);
    if a == [] {
      assert all[1..] == [];
    } else {
      LimitedUsersAppend(a[1..], u);
      LimitedUsersCons(a);
      assert all[1..] == a[1..] + [u];
      Assoc(IfLimited(a[0]), LimitedUsers(a[1..]), IfLimited(u));
    }
  }

  lemma {:induction false} SharedClientsAppend(a: seq<User>, u: User)
    ensures SharedClients(a + [u]) == SharedClients(a) + (if IsShared(u) then [ClientOf(u)] else [])
  {
    if a == [] {
      assert ([] + [u])[1..] == [];
    } else {
      SharedClientsAppend(a[1..], u);
      assert (a + [u])[1..] == a[1..] + [u];
    }
  }

  method UnlimitedClients(users: seq<User>) returns (unlimited: seq<Client>)
    ensures unlimited == SharedClients(users)
  {
    unlimited := [];
    for i := 0 to |users|
      invariant unlimited == SharedClients(users[..i])
    {
      var u := users[i];
      SharedClientsAppend(users[..i], u);
      assert users[..i + 1] == users[..i] + [u];
      if !u.enabled { continue; }
      if u.bandwidthPort > 0 && (u.downloadMbps > 0 || u.uploadMbps > 0) { continue; }
      unlimited := unlimited + [Client(u.uuid, u.email)];
    }
    assert users[..|users|] == users;
  }

  method AppendSOCKS(head: seq<Inbound>, socks: seq<SOCKSInbound>) returns (inbounds: seq<Inbound>)
    ensures inbounds == head + SOCKSInbounds(socks)
  {
    inbounds := head;
    for i := 0 to |socks|
      invariant inbounds == head + SOCKSInbounds(socks[..i])
    {
      inbounds := inbounds + [SOCKSInboundOf(socks[i])];
      assert SOCKSInbounds(socks[..i + 1]) == SOCKSInbounds(socks[..i]) + [SOCKSInboundOf(socks[i])];
    }
    assert socks[..|socks|] == socks;
  }

  lemma LimitedInboundsAppend(a: seq<User>, u: User)
    ensures LimitedInbounds(a + [u]) == LimitedInbounds(a) + if IsLimited(u) then [LimitedInbound(u)] else []
  {
    LimitedUsersAppend(a, u);
  }

  method AppendLimited(head: seq<Inbound>, users: seq<User>) returns (inbounds: seq<Inbound>)
    ensures inbounds == head + LimitedInbounds(users)
  {
    inbounds := head;
    for i := 0 to |users|
      invariant inbounds == head + LimitedInbounds(users[..i])
    {
      var u := users[i];
      LimitedInboundsAppend(users[..i], u);
      assert users[..i + 1] == users[..i] + [u];
      if u.enabled && u.bandwidthPort > 0 && (u.downloadMbps > 0 || u.uploadMbps > 0) {
        Assoc(head, LimitedInbounds(users[..i]), [LimitedInbound(u)]);
        inbounds := inbounds + [LimitedInbound(u)];
      }
    }
    assert users[..|users|] == users;
  }

  /** The inbound list of Generate. */
  method GenerateInbounds(c: Config) returns (inbounds: seq<Inbound>)
    ensures inbounds == InboundsOf(c)
  {
    var unlimited := UnlimitedClients(c.users);
    inbounds := [WSInbound(c, unlimited)];
    inbounds := AppendSOCKS(inbounds, c.inbounds.publicSOCKS);
    inbounds := AppendLimited(inbounds, c.users);
    inbounds := inbounds + TailInbounds(c, unlimited);
  }

  // ---- who is admitted where ----

  ghost predicate Admits(c: Config, k: nat, u: User)
  {
    k < |InboundsOf(c)| && ClientOf(u) in InboundsOf(c)[k].clients
  }

  /** Positions of the shared WebSocket and xhttp inbounds. */
  const WS_INDEX: nat := 0

  ghost function XHTTPIndex(c: Config): nat { |c.inbounds.publicSOCKS| + |LimitedUsers(c.users)| + 2 }

  lemma {:induction false} LimitedKeepsDistinct(users: seq<User>)
    requires DistinctEmails(users)
    ensures DistinctEmails(LimitedUsers(users))
  {
    if users == [] {
    } else {
      assert DistinctEmails(users[1..]);
      LimitedKeepsDistinct(users[1..]);
      var rest := LimitedUsers(users[1..]);
      forall j | 0 <= j < |rest| ensures rest[j].email != users[0].email {
        assert rest[j] in users[1..];
      }
    }
  }

  lemma SameEmailSameUser(users: seq<User>, u: User, v: User)
    requires DistinctEmails(users) && u in users && v in users && u.email == v.email
    ensures u == v
  {
  }

  ghost function OwnIndex(c: Config, i: nat): nat { 1 + |c.inbounds.publicSOCKS| + i }

  ghost predicate IsOwnIndex(c: Config, k: nat) { 0 <= k - OwnIndex(c, 0) < |LimitedUsers(c.users)| }

  lemma InboundShape(c: Config, k: nat)
    requires k < |InboundsOf(c)|
    ensures |InboundsOf(c)| == XHTTPIndex(c) + 2
    ensures InboundsOf(c)[k].clients ==
              if k == WS_INDEX || k == XHTTPIndex(c) then SharedClients(c.users)
              else if IsOwnIndex(c, k) then [ClientOf(LimitedUsers(c.users)[k - OwnIndex(c, 0)])]
              else []
    ensures IsOwnIndex(c, k) ==> InboundsOf(c)[k] == LimitedInbound(LimitedUsers(c.users)[k - OwnIndex(c, 0)])
    ensures k == WS_INDEX ==> InboundsOf(c)[k] == WSInbound(c, SharedClients(c.users))
  {
  }

  lemma SharedIffListed(c: Config, u: User)
    requires Valid(c) && u in c.users
    ensures ClientOf(u) in SharedClients(c.users) <==> IsShared(u)
  {
    forall v | v in c.users && ClientOf(v) == ClientOf(u) ensures v == u { SameEmailSameUser(c.users, u, v); }
  }

  lemma AdmitsIff(c: Config, k: nat, u: User)
    requires Valid(c) && u in c.users
    ensures Admits(c, k, u) <==>
              || (IsShared(u) && (k == WS_INDEX || k == XHTTPIndex(c)))
              || (IsOwnIndex(c, k) && LimitedUsers(c.users)[k - OwnIndex(c, 0)] == u)
  {
    assert |InboundsOf(c)| == XHTTPIndex(c) + 2;
    if k < |InboundsOf(c)| {
      InboundShape(c, k);
      SharedIffListed(c, u);
      if IsOwnIndex(c, k) {
        var v := LimitedUsers(c.users)[k - OwnIndex(c, 0)];
        assert v in LimitedUsers(c.users);
        if ClientOf(u) == ClientOf(v) { SameEmailSameUser(c.users, u, v); }
      }
    }
  }

  /** `own` is the one inbound that admits the user, and it is the user's own. */
  ghost predicate OnlyOwn(c: Config, own: nat, u: User) {
    && own < |InboundsOf(c)| && InboundsOf(c)[own] == LimitedInbound(u)
    && forall k: nat :: Admits(c, k, u) <==> k == own
  }

  lemma OneOwnIndex(c: Config, i: nat, k: nat)
    requires Valid(c) && i < |LimitedUsers(c.users)| && IsOwnIndex(c, k)
    requires LimitedUsers(c.users)[k - OwnIndex(c, 0)] == LimitedUsers(c.users)[i]
    ensures k == OwnIndex(c, i)
  {
    LimitedKeepsDistinct(c.users);
  }

  lemma LimitedHasOwn(c: Config, u: User) returns (own: nat)
    requires Valid(c) && u in c.users && IsLimited(u)
    ensures OnlyOwn(c, own, u)
  {
    var i :| 0 <= i < |LimitedUsers(c.users)| && LimitedUsers(c.users)[i] == u;
    own := OwnIndex(c, i);
    InboundShape(c, own);
    forall k: nat ensures Admits(c, k, u) <==> k == own {
      AdmitsIff(c, k, u);
      if Admits(c, k, u) { OneOwnIndex(c, i, k); }
    }
  }

  /** Exactly which inbounds list a user of a valid configuration: none when disabled, the two shared ones when
      enabled without a limit, and exactly one, on the user's own port and path, when limited. */
  lemma AdmissionIs(c: Config, u: User)
    requires Valid(c) && u in c.users
    ensures !u.enabled ==> forall k: nat :: !Admits(c, k, u)
    ensures IsShared(u) ==> forall k: nat :: Admits(c, k, u) <==> k == WS_INDEX || k == XHTTPIndex(c)
    ensures IsLimited(u) ==> exists own :: OnlyOwn(c, own, u)
  {
    if IsLimited(u) {
      var own := LimitedHasOwn(c, u);
    } else {
      forall k: nat ensures Admits(c, k, u) <==> IsShared(u) && (k == WS_INDEX || k == XHTTPIndex(c)) {
        AdmitsIff(c, k, u);
        if IsOwnIndex(c, k) { assert LimitedUsers(c.users)[k - OwnIndex(c, 0)] in LimitedUsers(c.users); }
      }
    }
  }

  // ---- admission by what a client presents ----

  /** A client presents a user id only: inbound `k` lets it in when some entry carries that id. */
  ghost predicate AdmitsId(c: Config, k: nat, id: string) {
    k < |InboundsOf(c)| && exists entry :: entry in InboundsOf(c)[k].clients && entry.id == id
  }

  /** An enabled user without a limit on a shared inbound, or a limited user on the user's own one. */
  ghost predicate Serves(c: Config, k: nat, v: User) {
    || (IsShared(v) && (k == WS_INDEX || k == XHTTPIndex(c)))
    || (IsOwnIndex(c, k) && LimitedUsers(c.users)[k - OwnIndex(c, 0)] == v)
  }

  lemma AdmittedIsServed(c: Config, k: nat, id: string) returns (v: User)
    requires AdmitsId(c, k, id)
    ensures v in c.users && v.uuid == id && Serves(c, k, v)
  {
    InboundShape(c, k);
    var entry :| entry in InboundsOf(c)[k].clients && entry.id == id;
    if k == WS_INDEX || k == XHTTPIndex(c) {
      v :| v in c.users && IsShared(v) && entry == ClientOf(v);
    } else {
      v := LimitedUsers(c.users)[k - OwnIndex(c, 0)];
      assert v in LimitedUsers(c.users);
    }
  }

  /** An id is let in exactly where some user who carries it is served. Validate does not make the ids distinct. */
  lemma AdmitsIdIff(c: Config, k: nat, id: string)
    requires Valid(c)
    ensures AdmitsId(c, k, id) <==> exists v :: v in c.users && v.uuid == id && Serves(c, k, v)
  {
    if AdmitsId(c, k, id) {
      var v := AdmittedIsServed(c, k, id);
    }
    if v :| v in c.users && v.uuid == id && Serves(c, k, v) {
      AdmitsIff(c, k, v);
      assert ClientOf(v).id == id;
    }
  }

  ghost predicate DistinctIds(users: seq<User>) {
    forall u, v :: u in users && v in users && u.uuid == v.uuid ==> u == v
  }

  /** With distinct ids, letting in a user's id is listing that user. */
  lemma IdMeansUser(c: Config, k: nat, u: User)
    requires Valid(c) && DistinctIds(c.users) && u in c.users
    ensures AdmitsId(c, k, u.uuid) <==> Admits(c, k, u)
  {
    AdmitsIdIff(c, k, u.uuid);
    AdmitsIff(c, k, u);
  }

  // ---- what can be reached from outside ----

  /** The inbound of a managed SOCKS entry, behind its user name and password. */
  ghost predicate IsSOCKS(i: Inbound, s: SOCKSInbound) {
    && i.protocol == "socks" && i.port == s.port && i.listen == s.listen
    && i.tag == "managed-socks-" + s.name && i.account == Some((s.username, s.password))
  }

  /** The inbound of an enabled user with a port and a rate, for this user only. */
  ghost predicate IsOwn(i: Inbound, u: User) {
    && u.enabled && u.bandwidthPort > 0 && (u.downloadMbps > 0 || u.uploadMbps > 0)
    && i.protocol == "vless" && i.listen == "0.0.0.0" && i.port == u.bandwidthPort
    && i.clients == [Client(u.uuid, u.email)] && i.path == "/limited/" + u.email
  }

  lemma InboundSplit(c: Config, k: nat)
    requires k < |InboundsOf(c)|
    ensures 0 < k <= |c.inbounds.publicSOCKS| ==> InboundsOf(c)[k] == SOCKSInboundOf(c.inbounds.publicSOCKS[k - 1])
    ensures k == XHTTPIndex(c) - 1 ==> InboundsOf(c)[k] == TailInbounds(c, SharedClients(c.users))[0]
    ensures k == XHTTPIndex(c) ==> InboundsOf(c)[k] == XHTTPInbound(c, SharedClients(c.users))
    ensures k == XHTTPIndex(c) + 1 ==> InboundsOf(c)[k] == TailInbounds(c, SharedClients(c.users))[2]
  {
  }

  /** Off the loopback interface there is the shared WebSocket inbound, one inbound for each managed SOCKS entry behind
      its password, and one for each limited user; the local SOCKS, xhttp and API inbounds are not among them. */
  lemma ReachableIs(c: Config, k: nat)
    requires k < |InboundsOf(c)| && InboundsOf(c)[k].listen != "127.0.0.1"
    ensures var i := InboundsOf(c)[k];
            || (i.protocol == "vless" && i.port == c.inbounds.vlessWSPort && i.path == "/vless")
            || (exists s :: s in c.inbounds.publicSOCKS && IsSOCKS(i, s))
            || (exists u :: u in c.users && IsOwn(i, u))
  {
    var i := InboundsOf(c)[k];
    InboundShape(c, k);
    InboundSplit(c, k);
    if 0 < k <= |c.inbounds.publicSOCKS| {
      assert IsSOCKS(i, c.inbounds.publicSOCKS[k - 1]);
    } else if IsOwnIndex(c, k) {
      var u := LimitedUsers(c.users)[k - OwnIndex(c, 0)];
      assert u in LimitedUsers(c.users) && IsOwn(i, u);
    }
  }

  /** Every managed SOCKS entry has its inbound. */
  lemma EverySOCKSIsThere(c: Config, n: nat)
    requires n < |c.inbounds.publicSOCKS|
    ensures n + 1 < |InboundsOf(c)| && IsSOCKS(InboundsOf(c)[n + 1], c.inbounds.publicSOCKS[n])
  {
    InboundSplit(c, n + 1);
  }

  /** Exactly the last inbound carries the tag that the first routing rule sends to the API, and it listens on loopback
      only. */
  lemma APIInboundIs(c: Config, k: nat)
    requires k < |InboundsOf(c)|
    ensures InboundsOf(c)[k].tag == "xray-api" <==> k == |InboundsOf(c)| - 1
    ensures InboundsOf(c)[k].tag == "xray-api" ==>
              && InboundsOf(c)[k].listen == "127.0.0.1" && InboundsOf(c)[k].protocol == "dokodemo-door"
              && InboundsOf(c)[k].port == if c.apiPort == 0 then 10085 else c.apiPort
  {
    InboundShape(c, k);
    InboundSplit(c, k);
    var i := InboundsOf(c)[k];
    assert "xray-api"[0] == 'x' && "vless-public"[0] == 'v' && "vless-xhttp-local"[0] == 'v';
    if 0 < k <= |c.inbounds.publicSOCKS| {
      assert i.tag[0] == 'm';
    } else if IsOwnIndex(c, k) {
      assert i.tag[0] == 'l';
    }
  }
}
