/** The bandwidth-port allocator and the mutation that uses it. */
module Mutate {
  import opened Text
  import opened Stack
  import opened Samples

  const FIRST_PORT := 21000
  const END_PORT := 22000

  /** The ports the allocator looks at: all configured ports except the sni-spoof listener. */
  ghost function SeenPorts(c: Config): seq<int> {
    FixedPorts(c) + UserPorts(c.users) + SOCKSPorts(c.inbounds.publicSOCKS)
  }

  /** The least port from `p` on that no configured listener holds. */
  ghost function FreeFrom(c: Config, p: int): (r: Option<int>)
    requires FIRST_PORT <= p <= END_PORT
    ensures r.Some? ==> p <= r.value < END_PORT && r.value !in SeenPorts(c) && forall q ::
            p <= q < r.value ==> q in SeenPorts(c)
    decreases END_PORT - p
  {
    if p == END_PORT then None else if p !in SeenPorts(c) then Some(p) else FreeFrom(c, p + 1)
  }

  method NextBandwidthPort(c: Config) returns (r: Option<int>)
    ensures r == FreeFrom(c, FIRST_PORT)
  {
    var used := {c.inbounds.vlessWSPort, c.inbounds.vlessXHTTPPort, c.inbounds.localSOCKSPort, c.apiPort};
    ghost var socks, users := c.inbounds.publicSOCKS, c.users;
    for i := 0 to |c.inbounds.publicSOCKS|
      invariant forall p :: p in used <==> p in FixedPorts(c) || p in SOCKSPorts(socks[..i])
    {
      used := used + {c.inbounds.publicSOCKS[i].port};
      assert SOCKSPorts(socks[..i + 1]) == SOCKSPorts(socks[..i]) + [socks[i].port];
    }
    assert socks[..|socks|] == socks;
    for i := 0 to |c.users|
      invariant forall p :: p in used <==> p in FixedPorts(c) || p in SOCKSPorts(socks) || p in UserPorts(users[..i])
    {
      used := used + {c.users[i].bandwidthPort};
      assert UserPorts(users[..i + 1]) == UserPorts(users[..i]) + [users[i].bandwidthPort];
    }
    assert users[..|users|] == users;
    for port := FIRST_PORT to END_PORT
      invariant FreeFrom(c, port) == FreeFrom(c, FIRST_PORT)
    {
      if port !in used { return Some(port); }
    }
    return None;
  }

  // ---- pigeonhole ----

  lemma {:induction false} IntervalSize(lo: int, hi: int, s: set<int>)
    requires lo <= hi && forall p :: lo <= p < hi ==> p in s
    ensures |s| >= hi - lo
    decreases hi - lo
  {
    if lo == hi {
    } else {
      IntervalSize(lo, hi - 1, s - {hi - 1});
    }
  }

  lemma {:induction false} ElementsSize(s: seq<int>)
    ensures |set p | p in s| <= |s|
  {
    if s == [] {
    } else {
      ElementsSize(s[1..]);
      assert (set p | p in s) == (set p | p in s[1..]) + {s[0]};
    }
  }

  /** The allocator fails exactly when all 1000 ports are configured. */
  lemma {:induction false} FailsIffFullFrom(c: Config, p: int)
    requires FIRST_PORT <= p <= END_PORT
    ensures FreeFrom(c, p).None? <==> forall q :: p <= q < END_PORT ==> q in SeenPorts(c)
    decreases END_PORT - p
  {
    if p == END_PORT {
    } else {
      FailsIffFullFrom(c, p + 1);
    }
  }

  /** The allocator fails exactly when all 1000 ports are configured, which takes at least 996 users and SOCKS
      inbounds. */
  lemma AllocatorFailsIffFull(c: Config)
    ensures FreeFrom(c, FIRST_PORT).None? <==> forall q :: 21000 <= q < 22000 ==> q in SeenPorts(c)
    ensures |c.users| + |c.inbounds.publicSOCKS| < 996 ==> FreeFrom(c, FIRST_PORT).Some?
  {
    FailsIffFullFrom(c, FIRST_PORT);
    if FreeFrom(c, FIRST_PORT).None? {
      var all := set p | p in SeenPorts(c);
      IntervalSize(FIRST_PORT, END_PORT, all);
      ElementsSize(SeenPorts(c));
      assert |SeenPorts(c)| == 4 + |c.users| + |c.inbounds.publicSOCKS|;
    }
  }

  // ---- SetUserBandwidth ----

  /** Index of the first user with an email, or |users|. */
  function UserIndex(users: seq<User>, email: string): (i: nat)
    ensures i <= |users| && (i < |users| ==> users[i].email == email)
    ensures forall j :: 0 <= j < i ==> users[j].email != email
  {
    if users == [] || users[0].email == email then 0
    else
      var i := UserIndex(users[1..], email);
      assert forall j :: 0 < j < i + 1 ==> users[j] == users[1..][j - 1];
      i + 1
  }

  ghost predicate NeedsPort(u: User, down: int, up: int) { u.bandwidthPort == 0 && (down != 0 || up != 0) }

  /** The user after the mutation; when no port is free the rates are set all the same. */
  ghost function WithBandwidth(c: Config, u: User, down: int, up: int): User {
    u.(downloadMbps := down, uploadMbps := up,
       bandwidthPort :=
         if down == 0 && up == 0 then 0
         else if NeedsPort(u, down, up) then (match FreeFrom(c, FIRST_PORT) case Some(p) => p case None => 0)
         else u.bandwidthPort)
  }

  ghost function WithUser(c: Config, i: nat, u: User): Config
    requires i < |c.users|
  {
    c.(users := c.users[i := u])
  }

  ghost predicate FreePort(c: Config, p: int) { 21000 <= p < 22000 && p !in SeenPorts(c) }

  /** What the mutation of user `i` promises. The rates are the ones asked for. The port is dropped when both are zero,
      kept if there was one, and otherwise the least free one, if any. Nothing else about this user changes, and
      nothing about anybody or anything else. */
  ghost predicate Limits(before: Config, after: Config, i: nat, down: int, up: int) {
    && i < |before.users| == |after.users| && after == before.(users := after.users)
    && (forall j :: 0 <= j < |before.users| && j != i ==> after.users[j] == before.users[j])
    && var (u, v) := (before.users[i], after.users[i]);
       && v == u.(downloadMbps := v.downloadMbps, uploadMbps := v.uploadMbps, bandwidthPort := v.bandwidthPort)
       && v.downloadMbps == down && v.uploadMbps == up
       && (down == 0 && up == 0 ==> v.bandwidthPort == 0)
       && ((down != 0 || up != 0) && u.bandwidthPort != 0 ==> v.bandwidthPort == u.bandwidthPort)
       && ((down != 0 || up != 0) && u.bandwidthPort == 0 ==>
             if exists p :: FreePort(before, p)
             then FreePort(before, v.bandwidthPort) && forall p :: FreePort(before, p) ==> v.bandwidthPort <= p
             else v.bandwidthPort == 0)
  }

  lemma UpdatedUserLimits(c: Config, i: nat, down: int, up: int)
    requires i < |c.users|
    ensures Limits(c, WithUser(c, i, WithBandwidth(c, c.users[i], down, up)), i, down, up)
  {
    FreeFromIsLeast(c);
  }

  lemma FreeFromIsLeast(c: Config)
    ensures match FreeFrom(c, FIRST_PORT)
            case Some(r) => FreePort(c, r) && forall p :: FreePort(c, p) ==> r <= p
            case None => !exists p :: FreePort(c, p)
  {
    FailsIffFullFrom(c, FIRST_PORT);
  }

  lemma RatesKeepPorts(c: Config, i: nat, u: User)
    requires i < |c.users| && u.bandwidthPort == c.users[i].bandwidthPort
    ensures SeenPorts(WithUser(c, i, u)) == SeenPorts(c)
  {
    assert UserPorts(WithUser(c, i, u).users) == UserPorts(c.users);
  }

  lemma {:induction false} SamePortsSameFree(c: Config, c': Config, p: int)
    requires SeenPorts(c) == SeenPorts(c') && FIRST_PORT <= p <= END_PORT
    ensures FreeFrom(c, p) == FreeFrom(c', p)
    decreases END_PORT - p
  {
    if p == END_PORT {
    } else {
      SamePortsSameFree(c, c', p + 1);
    }
  }

  datatype MutateError = NegativeRate | UserNotFound | NoFreePort | Rejected(error: ConfigError)

  class ConfigCell {
    var c: Config

    constructor (c: Config)
      ensures this.c == c
    {
      this.c := c;
    }

    /** The mutation of the user found at `i`, before validation. */
    method Update(i: nat, down: int, up: int) returns (full: bool)
      requires i < |c.users|
      modifies this
      ensures c == WithUser(old(c), i, WithBandwidth(old(c), old(c).users[i], down, up))
      ensures full <==> NeedsPort(old(c).users[i], down, up) && FreeFrom(old(c), FIRST_PORT).None?
    {
      c := c.(users := c.users[i := c.users[i].(downloadMbps := down)]);
      c := c.(users := c.users[i := c.users[i].(uploadMbps := up)]);
      RatesKeepPorts(old(c), i, c.users[i]);
      SamePortsSameFree(old(c), c, FIRST_PORT);
      if down == 0 && up == 0 {
        c := c.(users := c.users[i := c.users[i].(bandwidthPort := 0)]);
      } else if c.users[i].bandwidthPort == 0 {
        var port := NextBandwidthPort(c);
        if port.None? { return true; }
        c := c.(users := c.users[i := c.users[i].(bandwidthPort := port.value)]);
      }
      return false;
    }

    /** The configuration is changed before it is validated, so an error other than the first two leaves it changed. */
    method SetUserBandwidth(email: string, down: int, up: int) returns (err: Option<MutateError>)
      modifies this
      ensures var i := UserIndex(old(c).users, email);
              if down < 0 || up < 0 then err == Some(NegativeRate) && c == old(c)
              else if i == |old(c).users| then err == Some(UserNotFound) && c == old(c)
              else
                && c == WithUser(old(c), i, WithBandwidth(old(c), old(c).users[i], down, up))
                && Limits(old(c), c, i, down, up)
                && (err == Some(NoFreePort)
                    <==> NeedsPort(old(c).users[i], down, up) && FreeFrom(old(c), FIRST_PORT).None?)
                && (err.None? <==> Valid(c) && err != Some(NoFreePort))
    {
      if down < 0 || up < 0 { return Some(NegativeRate); }
      for i := 0 to |c.users|
        invariant c == old(c)
        invariant forall j :: 0 <= j < i ==> c.users[j].email != email
      {
        if c.users[i].email == email {
          assert i == UserIndex(c.users, email);
          var full := Update(i, down, up);
          UpdatedUserLimits(old(c), i, down, up);
          if full { return Some(NoFreePort); }
          var e := Validate(c);
          return if e.None? then None else Some(Rejected(e.value));
        }
      }
      return Some(UserNotFound);
    }
  }

  // ---- when a valid configuration stays valid ----

  lemma UpdateMiddle(f: seq<int>, s: seq<int>, t: seq<int>, i: nat, p: int)
    requires i < |s|
    ensures f + s[i := p] + t == (f + s + t)[|f| + i := p]
  {
  }

  lemma PortsUpdate(c: Config, i: nat, u: User)
    requires i < |c.users|
    ensures 4 + i < |Ports(c)| && Ports(c)[4 + i] == c.users[i].bandwidthPort
    ensures Ports(WithUser(c, i, u)) == Ports(c)[4 + i := u.bandwidthPort]
  {
    var f, s, t := FixedPorts(c), UserPorts(c.users), SOCKSPorts(c.inbounds.publicSOCKS) + SpoofPorts(c.sniSpoof);
    assert Ports(c) == f + s + t;
    assert UserPorts(c.users[i := u]) == s[i := u.bandwidthPort];
    assert Ports(WithUser(c, i, u)) == f + s[i := u.bandwidthPort] + t;
    UpdateMiddle(f, s, t, i, u.bandwidthPort);
  }

  lemma ClashFreeUpdate(s: seq<int>, k: nat, p: int)
    requires NoClash(s) && k < |s| && (p == 0 || s[k] == 0)
    ensures NoClash(s[k := p]) <==> p == 0 || p !in s
  {
    var t := s[k := p];
    if p != 0 && p in s {
      var j :| 0 <= j < |s| && s[j] == p;
      assert t[j] == p && t[k] == p && j != k;
    }
  }

  lemma UserStaysOk(c: Config, i: nat, u: User)
    requires UsersOk(c.users) && i < |c.users| && UserOk(u) && u.email == c.users[i].email
    ensures UsersOk(c.users[i := u])
  {
  }

  lemma OthersStayOk(c: Config, users: seq<User>)
    requires FailoverOk(c) && RelayOk(c) && SpoofOk(c) && HeaderOk(c)
    ensures var d := c.(users := users); FailoverOk(d) && RelayOk(d) && SpoofOk(d) && HeaderOk(d)
  {
  }

  /** For a valid configuration, an existing user and non-negative rates, the result is valid exactly when the port
      handed out, if one is needed, is not the one the sni-spoof listener holds. */
  lemma StaysValidIff(c: Config, i: nat, down: int, up: int)
    requires Valid(c) && i < |c.users| && down >= 0 && up >= 0
    ensures Valid(WithUser(c, i, WithBandwidth(c, c.users[i], down, up)))
            <==> !(NeedsPort(c.users[i], down, up) && c.sniSpoof.enabled
                   && ListenPort(SpoofListen(c.sniSpoof)) == FreeFrom(c, FIRST_PORT))
  {
    var u := WithBandwidth(c, c.users[i], down, up);
    var c' := WithUser(c, i, u);
    assert UserOk(c.users[i]) && UserOk(u);
    UserStaysOk(c, i, u);
    PortsUpdate(c, i, u);
    assert Ports(c) == SeenPorts(c) + SpoofPorts(c.sniSpoof);
    OthersStayOk(c, c'.users);
    if u.bandwidthPort == c.users[i].bandwidthPort {
      assert Ports(c') == Ports(c);
    } else {
      ClashFreeUpdate(Ports(c), 4 + i, u.bandwidthPort);
    }
  }

  /** In particular, valid stays valid when sni-spoof is off or listens outside the allocator's range. */
  lemma StaysValid(c: Config, i: nat, down: int, up: int)
    requires Valid(c) && i < |c.users| && down >= 0 && up >= 0
    requires !c.sniSpoof.enabled
            || (match ListenPort(SpoofListen(c.sniSpoof)) case Some(p) => !(FIRST_PORT <= p < END_PORT)
                case None => true)
    ensures Valid(WithUser(c, i, WithBandwidth(c, c.users[i], down, up)))
  {
    StaysValidIff(c, i, down, up);
  }

  ghost function Crowded(listen: string): Config {
    Variant([ALICE], [], 1080, NO_SPOOF.(enabled := true, listen := listen), "", [])
  }

  lemma CrowdedPorts(listen: string, port: int)
    requires ListenPort(listen) == Some(port)
    ensures SeenPorts(Crowded(listen)) == [8080, 8081, 1080, 10085, 0]
    ensures SpoofPorts(Crowded(listen).sniSpoof) == [port]
  {
  }

  lemma CrowdedIsValid(listen: string, port: int)
    requires ListenPort(listen) == Some(port) && port !in [8080, 8081, 1080, 10085]
    ensures Valid(Crowded(listen)) && ListenPort(SpoofListen(Crowded(listen).sniSpoof)) == Some(port)
  {
    var spoof := NO_SPOOF.(enabled := true, listen := listen);
    assert SpoofPorts(spoof) == [port];
    AliceIsOk();
    assert [8080, 8081, 1080, 10085] + UserPorts([ALICE]) + SOCKSPorts([]) + [port]
      == [8080, 8081, 1080, 10085, 0, port];
    VariantIsValid([ALICE], [], 1080, spoof, "", []);
  }

  lemma LimitingCrowded(listen: string)
    requires ListenPort(listen) == Some(FIRST_PORT)
    ensures var c := Crowded(listen); Valid(c) && !Valid(WithUser(c, 0, WithBandwidth(c, c.users[0], 5, 5)))
  {
    CrowdedIsValid(listen, FIRST_PORT);
    CrowdedPorts(listen, FIRST_PORT);
    assert FreeFrom(Crowded(listen), FIRST_PORT) == Some(FIRST_PORT);
    StaysValidIff(Crowded(listen), 0, 5, 5);
  }

  /** A valid configuration that limiting a user makes invalid: the sni-spoof plugin listens on the first port to be
      handed out. */
  lemma LimitingCanInvalidate()
    ensures var c := Crowded(Loopback(FIRST_PORT));
            Valid(c) && !Valid(WithUser(c, 0, WithBandwidth(c, c.users[0], 5, 5)))
  {
    LoopbackListens(FIRST_PORT);
    LimitingCrowded(Loopback(FIRST_PORT));
  }
}
