/** VLESS share links: the printer, the parser that the subscription encoders use, and their round trip. */
module Links {
  import opened Text
  import opened Stack
  import opened Query

  datatype Link = Link(name: string, url: string)

  /** What the Clash and sing-box encoders read out of a link. */
  datatype Parsed = Parsed(
    uuid: string, host: string, port: int, transport: string, path: string,
    hostHeader: string, sni: string, tls: bool, mode: string)

  // ---- printing ----

  ghost predicate Printable(name: string, v: Values) { Octets(name) && OctetValues(v) }

  function URL(uuid: string, host: string, port: int, v: Values, name: string): string
    requires Printable(name, v)
  {
    "vless://" + uuid + "@" + host + ":" + Itoa(port) + "?" + Encode(v) + "#" + Escape(name)
  }

  ghost predicate LinkTexts(name: string, host: string, network: string, path: string, mode: string, extra: string) {
    Octets(name) && Octets(host) && Octets(network) && Octets(path) && Octets(mode) && Octets(extra)
  }

  /** The query keys of a link. */
  datatype Keys = Keys(encryption: string, kind: string, security: string, sni: string, host: string, path: string,
                       mode: string, extra: string)

  const KEYS := Keys("encryption", "type", "security", "sni", "host", "path", "mode", "extra")

  ghost predicate DistinctKeys(ks: Keys) {
    && ks.kind !in {ks.security, ks.sni, ks.host, ks.path, ks.mode, ks.extra}
    && ks.security !in {ks.sni, ks.host, ks.path, ks.mode, ks.extra, ks.encryption}
    && ks.sni !in {ks.host, ks.path, ks.mode, ks.extra, ks.encryption}
    && ks.host !in {ks.path, ks.mode, ks.extra, ks.encryption}
    && ks.path !in {ks.mode, ks.extra} && ks.mode !in {ks.extra, ks.encryption}
  }

  ghost predicate OctetKeys(ks: Keys) {
    && Octets(ks.encryption) && Octets(ks.kind) && Octets(ks.security) && Octets(ks.sni)
    && Octets(ks.host) && Octets(ks.path) && Octets(ks.mode) && Octets(ks.extra)
  }

  lemma KeysAreDistinct()
    ensures DistinctKeys(KEYS) && OctetKeys(KEYS)
  {
  }

  /** The settings of a link, stage by stage. */
  ghost function Start(ks: Keys, kind: string): Values { Put(Put([], ks.encryption, "none"), ks.kind, kind) }

  ghost function Secure(ks: Keys, v: Values, tls: bool, host: string): Values {
    if tls then Put(Put(v, ks.security, "tls"), ks.sni, host) else Put(v, ks.security, "none")
  }

  ghost function HostHeader(ks: Keys, v: Values, wanted: bool, host: string): Values {
    if wanted then Put(v, ks.host, host) else v
  }

  ghost function Finish(ks: Keys, v: Values, path: string, mode: string, extra: string): Values {
    var v := Put(v, ks.path, path);
    var v := if mode != "" then Put(v, ks.mode, mode) else v;
    if extra != "" then Put(v, ks.extra, extra) else v
  }

  ghost function Settings(ks: Keys, kind: string, tls: bool, header: bool, host: string, path: string, mode: string,
                          extra: string): Values
  {
    Finish(ks, HostHeader(ks, Secure(ks, Start(ks, kind), tls, host), header, host), path, mode, extra)
  }

  ghost function VlessValues(host: string, network: string, path: string, mode: string, tls: bool,
                             extra: string): Values
  {
    Settings(KEYS, network, tls, tls, host, path, if network == "xhttp" then mode else "",
             if network == "xhttp" then extra else "")
  }

  ghost function CompatValues(host: string, path: string, mode: string, tls: bool): Values {
    Settings(KEYS, "splithttp", tls, true, host, path, mode, "")
  }

  ghost function GetOr(m: map<string, string>, k: string): string { if k in m then m[k] else "" }

  /** What a client reads of the settings, but for the encryption and the tuning. */
  datatype Reading = Reading(kind: string, path: string, security: string, sni: string, hostHeader: string,
                             mode: string)

  function ReadingOf(ks: Keys, v: Values): Reading {
    Reading(Lookup(v, ks.kind), Lookup(v, ks.path), Lookup(v, ks.security), Lookup(v, ks.sni), Lookup(v, ks.host),
            Lookup(v, ks.mode))
  }

  lemma StartIs(ks: Keys, kind: string)
    ensures MapOf(Start(ks, kind)) == map[ks.encryption := "none"][ks.kind := kind]
    ensures OctetKeys(ks) && Octets(kind) ==> OctetValues(Start(ks, kind))
  {
    PutIs([], ks.encryption, "none");
    PutIs(Put([], ks.encryption, "none"), ks.kind, kind);
  }

  lemma SecureIs(ks: Keys, v: Values, tls: bool, host: string)
    ensures MapOf(Secure(ks, v, tls, host)) ==
              if tls then MapOf(v)[ks.security := "tls"][ks.sni := host] else MapOf(v)[ks.security := "none"]
    ensures OctetKeys(ks) && OctetValues(v) && Octets(host) ==> OctetValues(Secure(ks, v, tls, host))
  {
    PutIs(v, ks.security, if tls then "tls" else "none");
    PutIs(Put(v, ks.security, "tls"), ks.sni, host);
  }

  lemma FinishIs(ks: Keys, v: Values, path: string, mode: string, extra: string)
    ensures var m := MapOf(v)[ks.path := path];
            var m := if mode != "" then m[ks.mode := mode] else m;
            MapOf(Finish(ks, v, path, mode, extra)) == if extra != "" then m[ks.extra := extra] else m
    ensures OctetKeys(ks) && OctetValues(v) && Octets(path) && Octets(mode) && Octets(extra)
            ==> OctetValues(Finish(ks, v, path, mode, extra))
  {
    PutIs(v, ks.path, path);
    var v1 := Put(v, ks.path, path);
    PutIs(v1, ks.mode, mode);
    var v2 := if mode != "" then Put(v1, ks.mode, mode) else v1;
    PutIs(v2, ks.extra, extra);
  }

  lemma ReadsFromMap(ks: Keys, v: Values)
    ensures var m := MapOf(v);
            ReadingOf(ks, v) == Reading(GetOr(m, ks.kind), GetOr(m, ks.path), GetOr(m, ks.security),
                                        GetOr(m, ks.sni), GetOr(m, ks.host), GetOr(m, ks.mode))
  {
    LookupIs(v, ks.kind);
    LookupIs(v, ks.path);
    LookupIs(v, ks.security);
    LookupIs(v, ks.sni);
    LookupIs(v, ks.host);
    LookupIs(v, ks.mode);
  }

  lemma SettingsRead(ks: Keys, kind: string, tls: bool, header: bool, host: string, path: string, mode: string,
                     extra: string)
    requires DistinctKeys(ks)
    ensures ReadingOf(ks, Settings(ks, kind, tls, header, host, path, mode, extra)) ==
              Reading(kind, path, if tls then "tls" else "none", if tls then host else "",
                      if header then host else "", mode)
    ensures OctetKeys(ks) && Octets(kind) && Octets(host) && Octets(path) && Octets(mode) && Octets(extra) ==>
              OctetValues(Settings(ks, kind, tls, header, host, path, mode, extra))
  {
    StartIs(ks, kind);
    var v := Secure(ks, Start(ks, kind), tls, host);
    SecureIs(ks, Start(ks, kind), tls, host);
    PutIs(v, ks.host, host);
    var w := HostHeader(ks, v, header, host);
    FinishIs(ks, w, path, mode, extra);
    ReadsFromMap(ks, Finish(ks, w, path, mode, extra));
  }

  lemma VlessRead(host: string, network: string, path: string, mode: string, tls: bool, extra: string)
    requires LinkTexts("", host, network, path, mode, extra)
    ensures OctetValues(VlessValues(host, network, path, mode, tls, extra))
    ensures ReadingOf(KEYS, VlessValues(host, network, path, mode, tls, extra)) ==
              Reading(network, path, if tls then "tls" else "none", if tls then host else "",
                      if tls then host else "", if network == "xhttp" then mode else "")
  {
    KeysAreDistinct();
    SettingsRead(KEYS, network, tls, tls, host, path, if network == "xhttp" then mode else "",
                 if network == "xhttp" then extra else "");
  }

  lemma CompatRead(host: string, path: string, mode: string, tls: bool)
    requires LinkTexts("", host, "", path, mode, "")
    ensures OctetValues(CompatValues(host, path, mode, tls))
    ensures ReadingOf(KEYS, CompatValues(host, path, mode, tls)) ==
              Reading("splithttp", path, if tls then "tls" else "none", if tls then host else "", host, mode)
  {
    KeysAreDistinct();
    SettingsRead(KEYS, "splithttp", tls, true, host, path, mode, "");
  }

  method VlessLink(name: string, uuid: string, host: string, port: int, network: string, path: string, mode: string,
                   tls: bool, extra: string)
    returns (link: Link)
    requires LinkTexts(name, host, network, path, mode, extra)
    ensures OctetValues(VlessValues(host, network, path, mode, tls, extra))
    ensures link == Link(name, URL(uuid, host, port, VlessValues(host, network, path, mode, tls, extra), name))
  {
    var values: Values := [];
    values := Put(values, "encryption", "none");
    values := Put(values, "type", network);
    assert values == Start(KEYS, network);
    if tls {
      values := Put(values, "security", "tls");
      values := Put(values, "sni", host);
      values := Put(values, "host", host);
    } else {
      values := Put(values, "security", "none");
    }
    values := Put(values, "path", path);
    if network == "xhttp" && mode != "" { values := Put(values, "mode", mode); }
    if network == "xhttp" {
      if extra != "" { values := Put(values, "extra", extra); }
    }
    VlessRead(host, network, path, mode, tls, extra);
    assert values == VlessValues(host, network, path, mode, tls, extra);
    link := Link(name, "vless://" + uuid + "@" + host + ":" + Itoa(port) + "?" + Encode(values) + "#" + Escape(name));
  }

  method SplitHTTPCompatLink(name: string, uuid: string, host: string, port: int, path: string, mode: string, tls: bool)
    returns (link: Link)
    requires LinkTexts(name, host, "", path, mode, "")
    ensures OctetValues(CompatValues(host, path, mode, tls))
    ensures link == Link(name, URL(uuid, host, port, CompatValues(host, path, mode, tls), name))
  {
    var values: Values := [];
    values := Put(values, "encryption", "none");
    values := Put(values, "type", "splithttp");
    assert values == Start(KEYS, "splithttp");
    if tls {
      values := Put(values, "security", "tls");
      values := Put(values, "sni", host);
    } else {
      values := Put(values, "security", "none");
    }
    assert values == Secure(KEYS, Start(KEYS, "splithttp"), tls, host);
    values := Put(values, "host", host);
    values := Put(values, "path", path);
    if mode != "" { values := Put(values, "mode", mode); }
    CompatRead(host, path, mode, tls);
    assert values == CompatValues(host, path, mode, tls);
    link := Link(name, "vless://" + uuid + "@" + host + ":" + Itoa(port) + "?" + Encode(values) + "#" + Escape(name));
  }

  // ---- parsing ----

  /** (before, after) at the first separator; after is empty when there is none. */
  function Cut(s: string, c: char): (string, string) {
    var i := Find(s, c);
    if i < |s| then (s[..i], s[i + 1..]) else (s, "")
  }

  predicate HasControl(s: string) { exists i :: 0 <= i < |s| && (s[i] < ' ' || s[i] as int == 127) }

  function LowerChar(c: char): char { if 'A' <= c <= 'Z' then (c as int + 32) as char else c }

  /** The scheme compares without regard to case. */
  predicate IsVlessScheme(s: string) { |s| == 5 && forall i :: 0 <= i < 5 ==> LowerChar(s[i]) == "vless"[i] }

  /** "" or ":" followed by digits. */
  predicate OptionalPort(s: string) { s == "" || (s[0] == ':' && AllDigits(s[1..])) }

  predicate HostChar(c: char) { IsUnreserved(c) || c in "!$&'()*+,;=:[]<>\"" || c as int >= 128 }

  predicate UserInfoChar(c: char) { IsLetter(c) || IsDigit(c) || c in "-._:~!$&'()*+,;=%@" }

  predicate AllHostChars(s: string) { forall i :: 0 <= i < |s| ==> HostChar(s[i]) }

  predicate AllUserInfoChars(s: string) { forall i :: 0 <= i < |s| ==> UserInfoChar(s[i]) }

  /** Percent-decoding outside the query: '+' stands for itself. */
  function UnescapePlain(s: string): Option<string> {
    if s == "" then Some("")
    else if s[0] == '%' then
      if |s| < 3 || Unhex(s[1]).None? || Unhex(s[2]).None? then None
      else match UnescapePlain(s[3..])
           case Some(r) => Some([(16 * Unhex(s[1]).value + Unhex(s[2]).value) as char] + r)
           case None => None
    else match UnescapePlain(s[1..])
         case Some(r) => Some([s[0]] + r)
         case None => None
  }

  /** The host part with its optional port, as (hostname, port text). Bracketed and percent-encoded hosts,
      which url.Parse accepts, count as malformed here. */
  function ParseHost(h: string): Option<(string, string)> {
    var i := FindLast(h, ':');
    if !AllHostChars(h) || '[' in h then None
    else if i == 0 then Some((h, ""))
    else if OptionalPort(h[i - 1..]) then Some((h[..i - 1], h[i..]))
    else None
  }

  /** (user, hostname, port text) of the part between "//" and the path. */
  function ParseAuthority(a: string): Option<(string, string, string)> {
    var at := FindLast(a, '@');
    match ParseHost(a[at..])
    case None => None
    case Some((host, port)) =>
      if at == 0 then Some(("", host, port))
      else if !AllUserInfoChars(a[..at - 1]) then None
      else match UnescapePlain(Cut(a[..at - 1], ':').0)
           case Some(user) => Some((user, host, port))
           case None => None
  }

  function FromQuery(uuid: string, host: string, port: int, q: Values): Parsed {
    Parsed(uuid, host, port, OrDefault(Lookup(q, "type"), "tcp"), Lookup(q, "path"), Lookup(q, "host"),
           Lookup(q, "sni"), Lookup(q, "security") == "tls", Lookup(q, "mode"))
  }

  lemma FromReading(uuid: string, host: string, port: int, v: Values)
    ensures var r := ReadingOf(KEYS, v);
            FromQuery(uuid, host, port, v) ==
              Parsed(uuid, host, port, OrDefault(r.kind, "tcp"), r.path, r.hostHeader, r.sni, r.security == "tls",
                  r.mode)
  {
  }

  /** The part between the scheme and the query: either "//" authority and path, or something without a host. */
  function ParseHierarchy(hier: string, query: string): Option<Parsed> {
    if |hier| < 2 || hier[..2] != "//" then
      if |hier| > 0 && hier[0] == '/' && UnescapePlain(hier).None? then None
      else Some(FromQuery("", "", 0, ParseQuery(query)))
    else
      var rest := hier[2..];
      var slash := Find(rest, '/');
      match ParseAuthority(rest[..slash])
      case None => None
      case Some((user, host, port)) =>
        if UnescapePlain(rest[slash..]).None? then None
        else Some(FromQuery(user, host, match Atoi(port) case Some(n) => n case None => 0, ParseQuery(query)))
  }

  /** parseVLESS; None stands for its nil result. */
  function ParseVLESS(raw: string): Option<Parsed> {
    var (u, fragment) := Cut(raw, '#');
    var (scheme, rest) := Cut(u, ':');
    if HasControl(u) || !IsVlessScheme(scheme) || scheme == u || UnescapePlain(fragment).None? then None
    else
      var (hier, query) := Cut(rest, '?');
      ParseHierarchy(hier, query)
  }

  // ---- round trip ----

  lemma {:induction false} PlainUnescapes(s: string)
    requires Unreserved(s)
    ensures UnescapePlain(s) == Some(s)
  {
    if s == "" {
    } else {
      PlainUnescapes(s[1..]);
      assert [s[0]] + s[1..] == s;
    }
  }

  lemma {:induction false} EscapedUnescapes(s: string)
    requires Octets(s)
    ensures UnescapePlain(Escape(s)).Some?
  {
    if s == "" {
    } else {
      EscapedUnescapes(s[1..]);
      var e, rest := EscapeByte(s[0]), Escape(s[1..]);
      if IsUnreserved(s[0]) || s[0] == ' ' {
        assert (e + rest)[1..] == rest;
      } else {
        HexRoundTrip(s[0] as int / 16);
        HexRoundTrip(s[0] as int % 16);
        assert (e + rest)[3..] == rest && (e + rest)[1] == e[1] && (e + rest)[2] == e[2];
      }
    }
  }

  lemma Assoc(a: string, b: string, c: string)
    ensures a + (b + c) == a + b + c
  {
  }

  lemma HostPortParses(host: string, p: string)
    requires ':' !in p && '[' !in host + [':'] + p && AllHostChars(host + [':'] + p)
    ensures ParseHost(host + [':'] + p) == if AllDigits(p) then Some((host, p)) else None
  {
    var h := host + [':'] + p;
    FindLastConcat(host, ':', p);
    assert h[|host|..] == [':'] + p && h[..|host|] == host && h[|host| + 1..] == p;
    assert ([':'] + p)[1..] == p;
  }

  lemma HostParses(host: string, port: int)
    requires Unreserved(host)
    ensures ParseHost(host + ":" + Itoa(port)) == if port >= 0 then Some((host, Itoa(port))) else None
  {
    NumeralChars(port);
    HostPortParses(host, Itoa(port));
  }

  /** A printed int is digits, after a minus sign when it is negative. */
  lemma NumeralChars(n: int)
    ensures Itoa(n) != "" && (n >= 0 <==> AllDigits(Itoa(n)))
    ensures forall i :: 0 <= i < |Itoa(n)| ==> IsDigit(Itoa(n)[i]) || Itoa(n)[i] == '-'
  {
    if n < 0 { assert Itoa(n)[0] == '-'; }
  }

  /** uuid '@' host, when the host part parses. */
  lemma UserHostParses(uuid: string, h: string)
    requires Unreserved(uuid) && '@' !in h
    ensures ParseAuthority(uuid + ['@'] + h) ==
              match ParseHost(h) case None => None case Some((host, port)) => Some((uuid, host, port))
  {
    var a := uuid + ['@'] + h;
    FindLastConcat(uuid, '@', h);
    assert a[|uuid| + 1..] == h && a[..|uuid|] == uuid;
    FindAbsent(uuid, ':');
    PlainUnescapes(uuid);
  }

  lemma AuthorityParses(uuid: string, host: string, port: int)
    requires Unreserved(uuid) && Unreserved(host)
    ensures ParseAuthority(Authority(uuid, host, port)) == if port >= 0 then Some((uuid, host, Itoa(port))) else None
  {
    var h := host + ":" + Itoa(port);
    NumeralChars(port);
    Assoc(uuid + "@", host, ":");
    Assoc(uuid + "@", host + ":", Itoa(port));
    UserHostParses(uuid, h);
    HostParses(host, port);
  }

  lemma CutConcat(a: string, c: char, b: string)
    requires c !in a
    ensures Cut(a + [c] + b, c) == (a, b)
  {
    FindConcat(a, c, b);
    var s := a + [c] + b;
    assert s[..|a|] == a && s[|a| + 1..] == b;
  }

  ghost function Authority(uuid: string, host: string, port: int): string { uuid + "@" + host + ":" + Itoa(port) }

  predicate AuthorityChar(c: char) { IsUnreserved(c) || c == '@' || c == ':' }

  lemma AuthorityChars(uuid: string, host: string, port: int)
    requires Unreserved(uuid) && Unreserved(host)
    ensures var a := Authority(uuid, host, port); forall i :: 0 <= i < |a| ==> AuthorityChar(a[i])
  {
    NumeralChars(port);
  }

  lemma {:induction false} EncodeIsClean(v: Values)
    requires OctetValues(v)
    ensures forall i :: 0 <= i < |Encode(v)| ==> IsSafe(Encode(v)[i]) || Encode(v)[i] == '=' || Encode(v)[i] == '&'
  {
    if v == [] {
    } else {
      EscapeIsSafe(v[0].0);
      EscapeIsSafe(v[0].1);
      if |v| > 1 { EncodeIsClean(v[1..]); }
    }
  }

  predicate HeadChar(c: char) { AuthorityChar(c) || c in "/?%+=&" }

  predicate AllHeadChars(s: string) { forall i :: 0 <= i < |s| ==> HeadChar(s[i]) }

  /** The text before the fragment holds no control character and no '#'. */
  lemma HeadIsClean(s: string)
    requires AllHeadChars(s)
    ensures '#' !in s && !HasControl(s)
  {
    forall i | 0 <= i < |s| ensures s[i] != '#' && s[i] >= ' ' && s[i] as int != 127 { assert HeadChar(s[i]); }
  }

  /** Regroups a printed link the way the parser takes it apart. */
  lemma Regroup(start: string, slashes: string, uuid: string, at: string, host: string, colon: string, port: string,
                mark: string, q: string, hash: string, name: string)
    ensures var authority := uuid + at + host + colon + port;
            start + slashes + uuid + at + host + colon + port + mark + q + hash + name ==
              start + (slashes + authority + mark + q) + hash + name
  {
    var authority := uuid + at + host + colon + port;
    calc {
      start + slashes + uuid + at + host + colon + port;
      start + slashes + authority;
    }
    Assoc(start, slashes, authority);
    Assoc(start, slashes + authority, mark);
    Assoc(start, slashes + authority + mark, q);
  }

  lemma SchemeIs()
    ensures "vless:" + "//" == "vless://" && "vless:" == "vless" + [':'] && IsVlessScheme("vless") && ':' !in "vless"
    ensures AllHeadChars("vless:") && AllHeadChars("//")
  {
  }

  lemma HierarchySplits(authority: string, q: string)
    requires '/' !in authority
    ensures ParseHierarchy("//" + authority, q) ==
              match ParseAuthority(authority)
              case None => None
              case Some((user, host, port)) =>
                Some(FromQuery(user, host, match Atoi(port) case Some(n) => n case None => 0, ParseQuery(q)))
  {
    var hier := "//" + authority;
    assert hier[..2] == "//" && hier[2..] == authority;
    FindAbsent(authority, '/');
    assert authority[..|authority|] == authority && authority[|authority|..] == "";
  }

  lemma HierarchyParses(uuid: string, host: string, port: int, v: Values)
    requires Unreserved(uuid) && Unreserved(host) && OctetValues(v)
    ensures ParseHierarchy("//" + Authority(uuid, host, port), Encode(v)) ==
            if port >= 0 then Some(FromQuery(uuid, host, port, v)) else None
  {
    AuthorityChars(uuid, host, port);
    HierarchySplits(Authority(uuid, host, port), Encode(v));
    AuthorityParses(uuid, host, port);
    AtoiItoa(port);
    SameQuery(uuid, host, port, v);
  }

  /** A link's settings survive printing and parsing the query. */
  lemma SameQuery(uuid: string, host: string, port: int, v: Values)
    requires OctetValues(v)
    ensures FromQuery(uuid, host, port, ParseQuery(Encode(v))) == FromQuery(uuid, host, port, v)
  {
    QueryRoundTrip(v);
  }

  lemma HeadChars(authority: string, v: Values)
    requires OctetValues(v) && forall i :: 0 <= i < |authority| ==> AuthorityChar(authority[i])
    ensures AllHeadChars(authority) && AllHeadChars(Encode(v))
  {
    EncodeIsClean(v);
  }

  /** Splitting scheme ":" hierarchy "?" query "#" fragment, when each separator is the first of its kind. */
  lemma SplitsApart(scheme: string, hier: string, q: string, fragment: string)
    requires IsVlessScheme(scheme) && ':' !in scheme && '?' !in hier && UnescapePlain(fragment).Some?
    requires AllHeadChars(scheme + [':'] + (hier + ['?'] + q))
    ensures ParseVLESS(scheme + [':'] + (hier + ['?'] + q) + ['#'] + fragment) == ParseHierarchy(hier, q)
  {
    var rest := hier + ['?'] + q;
    var u := scheme + [':'] + rest;
    HeadIsClean(u);
    CutConcat(u, '#', fragment);
    CutConcat(scheme, ':', rest);
    CutConcat(hier, '?', q);
    assert |scheme| < |u|;
  }

  lemma AllHeadCharsConcat(a: string, b: string)
    requires AllHeadChars(a) && AllHeadChars(b)
    ensures AllHeadChars(a + b)
  {
  }

  /** A printed link parses back to its parts exactly when its port is not negative. */
  lemma URLRoundTrip(uuid: string, host: string, port: int, v: Values, name: string)
    requires Unreserved(uuid) && Unreserved(host) && Printable(name, v)
    ensures ParseVLESS(URL(uuid, host, port, v, name)) ==
            if port >= 0 then Some(FromQuery(uuid, host, port, v)) else None
  {
    var authority, q := Authority(uuid, host, port), Encode(v);
    AuthorityChars(uuid, host, port);
    HeadChars(authority, v);
    EscapedUnescapes(name);
    SchemeIs();
    Regroup("vless:", "//", uuid, "@", host, ":", Itoa(port), "?", q, "#", Escape(name));
    AllHeadCharsConcat("//", authority);
    AllHeadCharsConcat("//" + authority, "?");
    AllHeadCharsConcat("//" + authority + "?", q);
    AllHeadCharsConcat("vless:", "//" + authority + "?" + q);
    NoMark(authority);
    SplitsApart("vless", "//" + authority, q, Escape(name));
    HierarchyParses(uuid, host, port, v);
  }

  lemma NoMark(authority: string)
    requires forall i :: 0 <= i < |authority| ==> AuthorityChar(authority[i])
    ensures '?' !in "//" + authority
  {
  }

  /** parseVLESS inverts vlessLink, for any network, path, mode and name: it fails exactly when the port is negative.
      (An empty network reads back as the default "tcp".) */
  lemma VlessLinkRoundTrip(name: string, uuid: string, host: string, port: int, network: string, path: string,
                           mode: string, tls: bool, extra: string)
    requires LinkTexts(name, host, network, path, mode, extra) && Unreserved(uuid) && Unreserved(host)
    ensures OctetValues(VlessValues(host, network, path, mode, tls, extra))
    ensures ParseVLESS(URL(uuid, host, port, VlessValues(host, network, path, mode, tls, extra), name)) ==
              if port < 0 then None
              else Some(Parsed(uuid, host, port, OrDefault(network, "tcp"), path, if tls then host else "",
                               if tls then host else "", tls, if network == "xhttp" then mode else ""))
  {
    var v := VlessValues(host, network, path, mode, tls, extra);
    VlessRead(host, network, path, mode, tls, extra);
    FromReading(uuid, host, port, v);
    URLRoundTrip(uuid, host, port, VlessValues(host, network, path, mode, tls, extra), name);
  }

  /** The same for the Shadowrocket variant, whose Host is always set. */
  lemma CompatLinkRoundTrip(name: string, uuid: string, host: string, port: int, path: string, mode: string, tls: bool)
    requires LinkTexts(name, host, "", path, mode, "") && Unreserved(uuid) && Unreserved(host)
    ensures OctetValues(CompatValues(host, path, mode, tls))
    ensures ParseVLESS(URL(uuid, host, port, CompatValues(host, path, mode, tls), name)) ==
              if port < 0 then None
              else Some(Parsed(uuid, host, port, "splithttp", path, host, if tls then host else "", tls, mode))
  {
    var v := CompatValues(host, path, mode, tls);
    CompatRead(host, path, mode, tls);
    FromReading(uuid, host, port, v);
    URLRoundTrip(uuid, host, port, CompatValues(host, path, mode, tls), name);
  }

  // ---- what parseVLESS does not read ----

  function QueryOf(raw: string): Values { ParseQuery(Cut(Cut(raw, '#').0, '?').1) }

  function NameOf(raw: string): Option<string> { Unescape(Cut(raw, '#').1) }

  lemma HeadOf(uuid: string, host: string, port: int, q: string)
    requires Unreserved(uuid) && Unreserved(host) && AllHeadChars(q)
    ensures var head := "vless://" + uuid + "@" + host + ":" + Itoa(port);
            '?' !in head && '#' !in head + "?" + q
  {
    var authority := Authority(uuid, host, port);
    AuthorityChars(uuid, host, port);
    Assoc("vless://", uuid + "@" + host + ":", Itoa(port));
    Assoc("vless://", uuid + "@" + host, ":");
    Assoc("vless://", uuid + "@", host);
    Assoc("vless://", uuid, "@");
    var head := "vless://" + authority;
    assert forall i :: 0 <= i < |head| ==> AuthorityChar(head[i]) || head[i] == '/';
    assert AllHeadChars(head + "?" + q);
    HeadIsClean(head + "?" + q);
  }

  lemma RestOfURL(uuid: string, host: string, port: int, v: Values, name: string)
    requires Unreserved(uuid) && Unreserved(host) && Printable(name, v)
    ensures QueryOf(URL(uuid, host, port, v, name)) == v && NameOf(URL(uuid, host, port, v, name)) == Some(name)
  {
    var head, q := "vless://" + uuid + "@" + host + ":" + Itoa(port), Encode(v);
    HeadChars("", v);
    HeadOf(uuid, host, port, q);
    assert URL(uuid, host, port, v, name) == head + ['?'] + q + ['#'] + Escape(name);
    CutConcat(head + ['?'] + q, '#', Escape(name));
    CutConcat(head, '?', q);
    QueryRoundTrip(v);
    UnescapeEscape(name);
  }

  lemma RestRead(ks: Keys, kind: string, tls: bool, header: bool, host: string, path: string, mode: string,
                 extra: string)
    requires ks.encryption !in {ks.kind, ks.security, ks.sni, ks.host, ks.path, ks.mode, ks.extra}
    requires ks.extra !in {ks.kind, ks.security, ks.sni, ks.host, ks.path, ks.mode}
    ensures var v := Settings(ks, kind, tls, header, host, path, mode, extra);
            Lookup(v, ks.encryption) == "none" && Lookup(v, ks.extra) == extra
  {
    StartIs(ks, kind);
    var v := Secure(ks, Start(ks, kind), tls, host);
    SecureIs(ks, Start(ks, kind), tls, host);
    PutIs(v, ks.host, host);
    var w := HostHeader(ks, v, header, host);
    FinishIs(ks, w, path, mode, extra);
    var all := Finish(ks, w, path, mode, extra);
    LookupIs(all, ks.encryption);
    LookupIs(all, ks.extra);
  }

  /** A native link also carries its display name, no encryption of its own, and for xhttp the client tuning; the
      compatibility link carries no tuning. */
  lemma LinksCarryTheRest(name: string, uuid: string, host: string, port: int, network: string, path: string,
                          mode: string, tls: bool, extra: string)
    requires LinkTexts(name, host, network, path, mode, extra) && Unreserved(uuid) && Unreserved(host)
    ensures OctetValues(VlessValues(host, network, path, mode, tls, extra))
    ensures OctetValues(CompatValues(host, path, mode, tls))
    ensures var url := URL(uuid, host, port, VlessValues(host, network, path, mode, tls, extra), name);
            && NameOf(url) == Some(name) && Lookup(QueryOf(url), "encryption") == "none"
            && Lookup(QueryOf(url), "extra") == if network == "xhttp" then extra else ""
    ensures var url := URL(uuid, host, port, CompatValues(host, path, mode, tls), name);
            && NameOf(url) == Some(name) && Lookup(QueryOf(url), "encryption") == "none"
            && Lookup(QueryOf(url), "extra") == ""
  {
    VlessLinkRoundTrip(name, uuid, host, port, network, path, mode, tls, extra);
    CompatLinkRoundTrip(name, uuid, host, port, path, mode, tls);
    RestOfURL(uuid, host, port, VlessValues(host, network, path, mode, tls, extra), name);
    RestOfURL(uuid, host, port, CompatValues(host, path, mode, tls), name);
    var xhttp := network == "xhttp";
    RestRead(KEYS, network, tls, tls, host, path, if xhttp then mode else "", if xhttp then extra else "");
    RestRead(KEYS, "splithttp", tls, true, host, path, mode, "");
  }
}
