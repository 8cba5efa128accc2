/** Bandwidth limits compiled to an ordered nft/tc command sequence, and what those commands do to traffic. */
module Bandwidth {
  import opened Counting
  import opened Text
  import opened Stack
  import opened Compile

  datatype Limit = Limit(email: string, port: int, down: int, up: int)

  // ---- ActiveLimits ----

  function LimitOf(u: User): Limit { Limit(u.email, u.bandwidthPort, u.downloadMbps, u.uploadMbps) }

  ghost function LimitsOf(users: seq<User>): seq<Limit> {
    var l := LimitedUsers(users); seq(|l|, i requires 0 <= i < |l| => LimitOf(l[i]))
  }

  ghost predicate SortedByEmail(s: seq<Limit>) {
    forall i, j :: 0 <= i < j < |s| ==> !Less(s[j].email, s[i].email)
  }

  method Insert(sorted: seq<Limit>, x: Limit) returns (r: seq<Limit>)
    requires SortedByEmail(sorted)
    ensures SortedByEmail(r) && multiset(r) == multiset(sorted) + multiset{x}
  {
    var k := |sorted|;
    while k > 0 && Less(x.email, sorted[k - 1].email)
      invariant 0 <= k <= |sorted|
      invariant forall j :: k <= j < |sorted| ==> Less(x.email, sorted[j].email)
    {
      k := k - 1;
    }
    r := sorted[..k] + [x] + sorted[k..];
    assert sorted == sorted[..k] + sorted[k..];
    forall i | 0 <= i < k ensures !Less(x.email, sorted[i].email) {
      LessTotal(x.email, sorted[i].email);
      if i < k - 1 {
        LessTotal(sorted[k - 1].email, sorted[i].email);
        LessTotal(x.email, sorted[k - 1].email);
        if Less(x.email, sorted[i].email) && sorted[i].email != sorted[k - 1].email {
          LessTransitive(x.email, sorted[i].email, sorted[k - 1].email);
        }
      }
    }
    forall j | k <= j < |sorted| ensures !Less(sorted[j].email, x.email) { LessTotal(x.email, sorted[j].email); }
  }

  lemma LimitsOfAppend(a: seq<User>, u: User)
    ensures LimitsOf(a + [u]) == LimitsOf(a) + if IsLimited(u) then [LimitOf(u)] else []
  {
    LimitedUsersAppend(a, u);
  }

  method CollectLimits(users: seq<User>) returns (limits: seq<Limit>)
    ensures limits == LimitsOf(users)
  {
    limits := [];
    for i := 0 to |users|
      invariant limits == LimitsOf(users[..i])
    {
      var u := users[i];
      LimitsOfAppend(users[..i], u);
      assert users[..i + 1] == users[..i] + [u];
      if !u.enabled || u.bandwidthPort <= 0 || (u.downloadMbps <= 0 && u.uploadMbps <= 0) { continue; }
      limits := limits + [Limit(u.email, u.bandwidthPort, u.downloadMbps, u.uploadMbps)];
    }
    assert users[..|users|] == users;
  }

  /** The limits of exactly the limited users, sorted by email. */
  method ActiveLimits(c: Config) returns (limits: seq<Limit>)
    ensures SortedByEmail(limits) && multiset(limits) == multiset(LimitsOf(c.users))
  {
    var found := CollectLimits(c.users);
    limits := [];
    for i := 0 to |found|
      invariant SortedByEmail(limits) && multiset(limits) == multiset(found[..i])
    {
      limits := Insert(limits, found[i]);
      assert found[..i + 1] == found[..i] + [found[i]];
    }
    assert found[..|found|] == found;
  }

  ghost predicate DistinctLimitEmails(s: seq<Limit>) {
    forall i, j :: 0 <= i < j < |s| ==> s[i].email != s[j].email
  }

  lemma SameHead(a: seq<Limit>, b: seq<Limit>)
    requires SortedByEmail(a) && SortedByEmail(b) && multiset(a) == multiset(b) && DistinctLimitEmails(a)
    requires a != [] && b != []
    ensures a[0] == b[0]
  {
    assert a[0] in multiset(b) && b[0] in multiset(a);
    var k :| 0 <= k < |b| && b[k] == a[0];
    var j :| 0 <= j < |a| && a[j] == b[0];
    LessTotal(a[0].email, b[0].email);
    LessTotal(a[0].email, a[0].email);
    LessTotal(b[0].email, b[0].email);
    assert !Less(a[j].email, a[0].email) && !Less(b[k].email, b[0].email);
    assert j == 0;
  }

  /** With distinct emails the sorted list is unique, so the sorting algorithm does not matter. */
  lemma {:induction false} SortedIsUnique(a: seq<Limit>, b: seq<Limit>)
    requires SortedByEmail(a) && SortedByEmail(b) && multiset(a) == multiset(b) && DistinctLimitEmails(a)
    ensures a == b
  {
    assert |multiset(a)| == |a| && |multiset(b)| == |b|;
    if a == [] {
    } else {
      SameHead(a, b);
      assert a == [a[0]] + a[1..] && b == [b[0]] + b[1..];
      assert multiset(a[1..]) == multiset(a) - multiset{a[0]};
      assert multiset(b[1..]) == multiset(b) - multiset{b[0]};
      SortedIsUnique(a[1..], b[1..]);
    }
  }

  lemma EmailsPermute(a: seq<Limit>, b: seq<Limit>)
    requires multiset(a) == multiset(b) && DistinctLimitEmails(b)
    ensures DistinctLimitEmails(a)
  {
    forall i, j | 0 <= i < j < |a| ensures a[i].email != a[j].email {
      assert a[i] in multiset(b) && a[j] in multiset(b);
      TwiceIff(a, a[i]);
      TwiceIff(b, a[i]);
    }
  }

  /** For a valid configuration there is one email-sorted list of the limited users' limits. */
  lemma ValidLimitsAreUnique(c: Config, a: seq<Limit>, b: seq<Limit>)
    requires Valid(c) && SortedByEmail(a) && SortedByEmail(b)
    requires multiset(a) == multiset(LimitsOf(c.users)) == multiset(b)
    ensures a == b
  {
    LimitedKeepsDistinct(c.users);
    EmailsPermute(a, LimitsOf(c.users));
    SortedIsUnique(a, b);
  }

  /** Limits that can be enforced together. */
  ghost predicate GoodLimits(limits: seq<Limit>) {
    && (forall i :: 0 <= i < |limits| ==> limits[i].port > 0)
    && (forall i, j :: 0 <= i < j < |limits| ==> limits[i].port != limits[j].port)
  }

  lemma {:induction false} LimitedPortsDistinct(users: seq<User>)
    requires NoClash(UserPorts(users))
    ensures NoClash(UserPorts(LimitedUsers(users)))
  {
    if users == [] {
    } else {
      var rest := LimitedUsers(users[1..]);
      assert UserPorts(users) == [users[0].bandwidthPort] + UserPorts(users[1..]);
      ClashInSuffix([users[0].bandwidthPort], UserPorts(users[1..]));
      LimitedPortsDistinct(users[1..]);
      if IsLimited(users[0]) {
        assert LimitedUsers(users) == [users[0]] + rest;
        forall j | 0 <= j < |rest| ensures rest[j].bandwidthPort != users[0].bandwidthPort {
          assert rest[j] in users[1..];
          var k :| 0 <= k < |users[1..]| && users[1..][k] == rest[j];
          assert UserPorts(users)[0] == users[0].bandwidthPort && UserPorts(users)[k + 1] == rest[j].bandwidthPort;
        }
        assert UserPorts(LimitedUsers(users)) == [users[0].bandwidthPort] + UserPorts(rest);
      } else {
        assert LimitedUsers(users) == rest;
      }
    }
  }

  lemma ClashInSuffix(p: seq<int>, q: seq<int>)
    requires NoClash(p + q)
    ensures NoClash(q)
  {
    forall i, j | 0 <= i < j < |q| && q[i] == q[j] ensures q[i] == 0 {
      assert (p + q)[|p| + i] == q[i] && (p + q)[|p| + j] == q[j];
    }
  }

  /** Whatever order they are sorted in, the limits of a valid configuration have distinct positive ports. */
  lemma ValidLimitsAreGood(c: Config, limits: seq<Limit>)
    requires Valid(c) && multiset(limits) == multiset(LimitsOf(c.users))
    ensures GoodLimits(limits)
  {
    var l := LimitsOf(c.users);
    var users := LimitedUsers(c.users);
    assert Ports(c)
      == FixedPorts(c) + (UserPorts(c.users) + (SOCKSPorts(c.inbounds.publicSOCKS) + SpoofPorts(c.sniSpoof)));
    ClashInSuffix(FixedPorts(c), UserPorts(c.users) + (SOCKSPorts(c.inbounds.publicSOCKS) + SpoofPorts(c.sniSpoof)));
    ClashInPrefix(UserPorts(c.users), SOCKSPorts(c.inbounds.publicSOCKS) + SpoofPorts(c.sniSpoof));
    LimitedPortsDistinct(c.users);
    forall i | 0 <= i < |l| ensures l[i].port > 0 { assert users[i] in users; }
    forall i, j | 0 <= i < j < |l| ensures l[i].port != l[j].port {
      assert users[i] in users;
      assert UserPorts(users)[i] == l[i].port && UserPorts(users)[j] == l[j].port;
    }
    GoodPermutes(limits, l);
  }

  lemma GoodPermutes(a: seq<Limit>, b: seq<Limit>)
    requires multiset(a) == multiset(b) && GoodLimits(b)
    ensures GoodLimits(a)
  {
    forall i | 0 <= i < |a| ensures a[i].port > 0 { assert a[i] in multiset(b); }
    forall i, j | 0 <= i < j < |a| ensures a[i].port != a[j].port {
      assert a[i] in multiset(b) && a[j] in multiset(b);
      TwiceIff(a, a[i]);
      TwiceIff(b, a[i]);
    }
  }
}
