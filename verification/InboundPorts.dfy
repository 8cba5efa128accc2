/** The ports the generated inbounds listen on, against the ports Validate has checked. */
module InboundPorts {
  import opened Counting
  import opened Stack
  import opened Compile
  import opened Samples

  ghost function PortsOf(inbounds: seq<Inbound>): seq<int> {
    seq(|inbounds|, i requires 0 <= i < |inbounds| => inbounds[i].port)
  }

  ghost predicate PairwiseDistinct(s: seq<int>) { forall i, j :: 0 <= i < j < |s| ==> s[i] != s[j] }

  lemma DistinctByCount(s: seq<int>)
    ensures PairwiseDistinct(s) <==> forall p :: multiset(s)[p] <= 1
  {
    if PairwiseDistinct(s) {
      forall p ensures multiset(s)[p] <= 1 { TwiceIff(s, p); }
    } else {
      var i, j :| 0 <= i < j < |s| && s[i] == s[j];
      TwiceIff(s, s[i]);
    }
  }

  lemma ClashByCount(s: seq<int>, p: int)
    requires NoClash(s) && p != 0
    ensures multiset(s)[p] <= 1
  {
    TwiceIff(s, p);
  }

  lemma UserPortsCons(u: User, users: seq<User>, p: int)
    ensures multiset(UserPorts([u] + users))[p]
            == multiset(UserPorts(users))[p] + (if u.bandwidthPort == p then 1 else 0)
  {
    assert UserPorts([u] + users) == [u.bandwidthPort] + UserPorts(users);
  }

  lemma {:induction false} LimitedPortsAreFewer(users: seq<User>, p: int)
    ensures multiset(UserPorts(LimitedUsers(users)))[p] <= multiset(UserPorts(users))[p]
  {
    if users == [] {
    } else {
      LimitedPortsAreFewer(users[1..], p);
      var l := LimitedUsers(users[1..]);
      assert users == [users[0]] + users[1..];
      UserPortsCons(users[0], users[1..], p);
      if IsLimited(users[0]) {
        UserPortsCons(users[0], l, p);
        assert LimitedUsers(users) == [users[0]] + l;
      } else {
        assert LimitedUsers(users) == l;
      }
    }
  }

  /** The ports of all generated inbounds but the local SOCKS and API ones. */
  ghost function OtherPorts(c: Config): seq<int> {
    [c.inbounds.vlessWSPort, c.inbounds.vlessXHTTPPort] + SOCKSPorts(c.inbounds.publicSOCKS)
      + UserPorts(LimitedUsers(c.users))
  }

  lemma Reorder(socks: seq<int>, limited: seq<int>, ws: int, xhttp: int, local: int, api: int)
    ensures multiset([ws] + socks + limited + [local, xhttp, api])
            == multiset([ws, xhttp] + socks + limited) + multiset{local, api}
  {
  }

  lemma PortsInOrder(c: Config)
    ensures PortsOf(InboundsOf(c)) ==
              [c.inbounds.vlessWSPort] + SOCKSPorts(c.inbounds.publicSOCKS) + UserPorts(LimitedUsers(c.users))
              + [LocalPort(c), c.inbounds.vlessXHTTPPort, APIPort(c)]
  {
  }

  lemma InboundPortsAre(c: Config)
    ensures multiset(PortsOf(InboundsOf(c))) == multiset(OtherPorts(c)) + multiset{LocalPort(c), APIPort(c)}
  {
    PortsInOrder(c);
    Reorder(SOCKSPorts(c.inbounds.publicSOCKS), UserPorts(LimitedUsers(c.users)),
            c.inbounds.vlessWSPort, c.inbounds.vlessXHTTPPort, LocalPort(c), APIPort(c));
  }

  lemma ConcatCount(a: seq<int>, b: seq<int>, p: int)
    ensures multiset(a + b)[p] == multiset(a)[p] + multiset(b)[p]
  {
  }

  lemma PortsCount(c: Config, p: int)
    ensures multiset(Ports(c))[p] >= multiset(FixedPorts(c))[p] + multiset(UserPorts(c.users))[p]
            + multiset(SOCKSPorts(c.inbounds.publicSOCKS))[p]
  {
    var fixed, users, socks := FixedPorts(c), UserPorts(c.users), SOCKSPorts(c.inbounds.publicSOCKS);
    ConcatCount(fixed, users, p);
    ConcatCount(fixed + users, socks, p);
    ConcatCount(fixed + users + socks, SpoofPorts(c.sniSpoof), p);
  }

  lemma OtherCount(c: Config, p: int)
    ensures multiset(OtherPorts(c))[p] + multiset{c.inbounds.localSOCKSPort, c.apiPort}[p]
         == multiset(FixedPorts(c))[p] + multiset(SOCKSPorts(c.inbounds.publicSOCKS))[p]
           + multiset(UserPorts(LimitedUsers(c.users)))[p]
  {
    var vless := [c.inbounds.vlessWSPort, c.inbounds.vlessXHTTPPort];
    var socks := SOCKSPorts(c.inbounds.publicSOCKS);
    ConcatCount(vless, socks, p);
    ConcatCount(vless + socks, UserPorts(LimitedUsers(c.users)), p);
    FixedCount(c, p);
  }

  lemma PairCount(a: int, b: int)
    ensures multiset([a, b]) == multiset{a, b}
  {
  }

  lemma FourCount(a: int, b: int, c: int, d: int, p: int)
    ensures multiset([a, b, c, d])[p] == multiset([a, b])[p] + multiset{c, d}[p]
  {
    ConcatCount([a, b], [c, d], p);
    assert [a, b, c, d] == [a, b] + [c, d];
    PairCount(c, d);
  }

  lemma FixedCount(c: Config, p: int)
    ensures multiset(FixedPorts(c))[p]
         == multiset([c.inbounds.vlessWSPort, c.inbounds.vlessXHTTPPort])[p]
           + multiset{c.inbounds.localSOCKSPort, c.apiPort}[p]
  {
    FourCount(c.inbounds.vlessWSPort, c.inbounds.vlessXHTTPPort, c.inbounds.localSOCKSPort, c.apiPort, p);
  }

  /** The counts behind Validate's port map, for a configured (non-zero) port. */
  lemma ConfiguredOnce(c: Config, p: int)
    requires Valid(c) && p != 0
    ensures multiset(OtherPorts(c))[p] + multiset{c.inbounds.localSOCKSPort, c.apiPort}[p] <= 1
  {
    ClashByCount(Ports(c), p);
    LimitedPortsAreFewer(c.users, p);
    PortsCount(c, p);
    OtherCount(c, p);
  }

  /** The defaults that Generate substitutes for a zero local-SOCKS or API port, which Validate never sees, hit
      nothing. */
  ghost predicate DefaultsFree(c: Config) {
    && (c.inbounds.localSOCKSPort == 0 ==> 10808 !in OtherPorts(c) && APIPort(c) != 10808)
    && (c.apiPort == 0 ==> 10085 !in OtherPorts(c) && LocalPort(c) != 10085)
  }

  /** At most one of the ports that get no default is left at zero. */
  ghost predicate OneUnset(c: Config) {
    forall i, j :: 0 <= i < j < |OtherPorts(c)| && OtherPorts(c)[i] == 0 ==> OtherPorts(c)[j] != 0
  }

  /** The generated inbounds of a valid configuration listen on pairwise distinct ports exactly when the substituted
      defaults are free and at most one of the other ports is unset. */
  lemma InboundPortsDistinctIff(c: Config)
    requires Valid(c)
    ensures PairwiseDistinct(PortsOf(InboundsOf(c))) <==> DefaultsFree(c) && OneUnset(c)
  {
    InboundPortsAre(c);
    DistinctByCount(PortsOf(InboundsOf(c)));
    var all := multiset(PortsOf(InboundsOf(c)));
    var local, api := LocalPort(c), APIPort(c);
    DefaultsByCount(c);
    TwiceIff(OtherPorts(c), 0);
    assert all[0] == multiset(OtherPorts(c))[0];
    if DefaultsFree(c) && OneUnset(c) {
      forall p ensures all[p] <= 1 {
        if p != 0 { ConfiguredOnce(c, p); }
      }
    }
  }

  lemma DefaultsByCount(c: Config)
    requires Valid(c)
    ensures var all := multiset(OtherPorts(c)) + multiset{LocalPort(c), APIPort(c)};
            all[LocalPort(c)] <= 1 && all[APIPort(c)] <= 1 <==> DefaultsFree(c)
  {
    TwiceIff(OtherPorts(c), LocalPort(c));
    TwiceIff(OtherPorts(c), APIPort(c));
    ConfiguredOnce(c, LocalPort(c));
    ConfiguredOnce(c, APIPort(c));
  }

  /** In particular the ports are distinct whenever every configured port is non-zero. */
  lemma ConfiguredPortsAreDistinct(c: Config)
    requires Valid(c) && c.inbounds.vlessXHTTPPort != 0 && c.inbounds.localSOCKSPort != 0 && c.apiPort != 0
    requires forall s :: s in c.inbounds.publicSOCKS ==> s.port != 0
    ensures PairwiseDistinct(PortsOf(InboundsOf(c)))
  {
    var l := LimitedUsers(c.users);
    forall i | 0 <= i < |l| ensures UserPorts(l)[i] != 0 { assert l[i] in l; }
    forall i | 0 <= i < |c.inbounds.publicSOCKS| ensures SOCKSPorts(c.inbounds.publicSOCKS)[i] != 0 {
      assert c.inbounds.publicSOCKS[i] in c.inbounds.publicSOCKS;
    }
    assert 0 !in OtherPorts(c);
    InboundPortsDistinctIff(c);
  }

  /** Two listeners on 10808 out of a valid configuration: a zero local-SOCKS port and a SOCKS inbound on 10808. */
  lemma DefaultCanClash(c: Config)
    requires Valid(c) && c.inbounds.localSOCKSPort == 0
    requires exists s :: s in c.inbounds.publicSOCKS && s.port == 10808
    ensures !PairwiseDistinct(PortsOf(InboundsOf(c)))
  {
    var s :| s in c.inbounds.publicSOCKS && s.port == 10808;
    var i :| 0 <= i < |c.inbounds.publicSOCKS| && c.inbounds.publicSOCKS[i] == s;
    assert SOCKSPorts(c.inbounds.publicSOCKS)[i] == 10808;
    InboundPortsDistinctIff(c);
  }

  const PROXIED := [SOCKSInbound("office", "0.0.0.0", 10808, "user", "secret")]

  /** Such a configuration: the local SOCKS port is unset and a SOCKS inbound listens on 10808. */
  lemma ValidConfigCanClash()
    ensures var c := Variant([], PROXIED, 0, NO_SPOOF, "", []);
            Valid(c) && !PairwiseDistinct(PortsOf(InboundsOf(c)))
  {
    assert SOCKSPorts(PROXIED) == [10808];
    VariantIsValid([], PROXIED, 0, NO_SPOOF, "", []);
    assert PROXIED[0].port == 10808 && PROXIED[0] in PROXIED;
    DefaultCanClash(Variant([], PROXIED, 0, NO_SPOOF, "", []));
  }
}
