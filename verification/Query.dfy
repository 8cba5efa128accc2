/** Query strings: percent-encoding in its query-form variant (section 2.1 of RFC 3986), ordered values, and parsing. */
module Query {
  import opened Text

  /** Go strings are bytes. */
  ghost predicate Octets(s: string) { forall i :: 0 <= i < |s| ==> s[i] as int < 256 }

  predicate IsLetter(c: char) { 'a' <= c <= 'z' || 'A' <= c <= 'Z' }

  predicate IsUnreserved(c: char) { IsLetter(c) || IsDigit(c) || c == '-' || c == '_' || c == '.' || c == '~' }

  predicate Unreserved(s: string) { forall i :: 0 <= i < |s| ==> IsUnreserved(s[i]) }

  function HexDigit(d: nat): (c: char)
    requires d < 16
    ensures IsDigit(c) || 'A' <= c <= 'F'
  {
    if d < 10 then ('0' as int + d) as char else ('A' as int + d - 10) as char
  }

  function Unhex(c: char): (d: Option<nat>)
    ensures d.Some? ==> d.value < 16
  {
    if '0' <= c <= '9' then Some(c as int - '0' as int)
    else if 'a' <= c <= 'f' then Some(c as int - 'a' as int + 10)
    else if 'A' <= c <= 'F' then Some(c as int - 'A' as int + 10)
    else None
  }

  function EscapeByte(c: char): string
    requires c as int < 256
  {
    if IsUnreserved(c) then [c]
    else if c == ' ' then "+"
    else ['%', HexDigit(c as int / 16), HexDigit(c as int % 16)]
  }

  function Escape(s: string): string
    requires Octets(s)
  {
    if s == "" then "" else EscapeByte(s[0]) + Escape(s[1..])
  }

  /** None on a malformed escape. */
  function Unescape(s: string): Option<string> {
    if s == "" then Some("")
    else if s[0] == '%' then
      if |s| < 3 || Unhex(s[1]).None? || Unhex(s[2]).None? then None
      else match Unescape(s[3..])
           case Some(r) => Some([(16 * Unhex(s[1]).value + Unhex(s[2]).value) as char] + r)
           case None => None
    else match Unescape(s[1..])
         case Some(r) => Some([if s[0] == '+' then ' ' else s[0]] + r)
         case None => None
  }

  lemma HexRoundTrip(d: nat)
    requires d < 16
    ensures Unhex(HexDigit(d)) == Some(d)
  {
  }

  lemma UnescapeByte(c: char, rest: string)
    requires c as int < 256
    ensures Unescape(EscapeByte(c) + rest) == match Unescape(rest) case Some(r) => Some([c] + r) case None => None
  {
    var e := EscapeByte(c);
    if IsUnreserved(c) || c == ' ' {
      assert (e + rest)[1..] == rest;
    } else {
      HexRoundTrip(c as int / 16);
      HexRoundTrip(c as int % 16);
      assert (e + rest)[3..] == rest && (e + rest)[1] == e[1] && (e + rest)[2] == e[2];
    }
  }

  /** Escaping is undone by unescaping, for every byte string. */
  lemma {:induction false} UnescapeEscape(s: string)
    requires Octets(s)
    ensures Unescape(Escape(s)) == Some(s)
  {
    if s == "" {
    } else {
      UnescapeEscape(s[1..]);
      UnescapeByte(s[0], Escape(s[1..]));
      assert [s[0]] + s[1..] == s;
    }
  }

  /** The characters that an escaped string can hold. */
  predicate IsSafe(c: char) { IsUnreserved(c) || c == '+' || c == '%' }

  lemma {:induction false} EscapeIsSafe(s: string)
    requires Octets(s)
    ensures forall i :: 0 <= i < |Escape(s)| ==> IsSafe(Escape(s)[i])
  {
    if s == "" {
    } else {
      EscapeIsSafe(s[1..]);
    }
  }

  // ---- values ----

  /** url.Values with one value per key, in the order Encode prints them. */
  type Values = seq<(string, string)>

  function Put(v: Values, key: string, value: string): Values {
    if v == [] then [(key, value)]
    else if v[0].0 == key then [(key, value)] + v[1..]
    else if Less(key, v[0].0) then [(key, value)] + v
    else [v[0]] + Put(v[1..], key, value)
  }

  /** The first value of a key, "" when there is none. */
  function Lookup(v: Values, key: string): string {
    if v == [] then "" else if v[0].0 == key then v[0].1 else Lookup(v[1..], key)
  }

  ghost predicate KeysAscend(v: Values) { forall i, j :: 0 <= i < j < |v| ==> Less(v[i].0, v[j].0) }

  ghost predicate OctetValues(v: Values) { forall i :: 0 <= i < |v| ==> Octets(v[i].0) && Octets(v[i].1) }

  /** The values as a map; the first value of a key wins. */
  ghost function MapOf(v: Values): map<string, string> {
    if v == [] then map[] else MapOf(v[1..])[v[0].0 := v[0].1]
  }

  lemma {:induction false} LookupIs(v: Values, k: string)
    ensures Lookup(v, k) == if k in MapOf(v) then MapOf(v)[k] else ""
  {
    if v == [] {
    } else {
      LookupIs(v[1..], k);
    }
  }

  lemma {:induction false} PutIs(v: Values, key: string, value: string)
    ensures MapOf(Put(v, key, value)) == MapOf(v)[key := value]
    ensures OctetValues(v) && Octets(key) && Octets(value) ==> OctetValues(Put(v, key, value))
  {
    if v == [] || v[0].0 == key || Less(key, v[0].0) {
    } else {
      PutIs(v[1..], key, value);
      assert OctetValues(v) ==> OctetValues(v[1..]);
      assert ([v[0]] + Put(v[1..], key, value))[1..] == Put(v[1..], key, value);
    }
  }

  lemma {:induction false} PutKeeps(v: Values, key: string, value: string)
    requires KeysAscend(v)
    ensures KeysAscend(Put(v, key, value))
    ensures forall p :: p in Put(v, key, value) ==> p == (key, value) || p in v
  {
    if v == [] {
    } else {
      LessTotal(key, v[0].0);
      if v[0].0 != key {
        if Less(key, v[0].0) {
          forall j | 0 <= j < |v| ensures Less(key, v[j].0) {
            if j > 0 { LessTransitive(key, v[0].0, v[j].0); }
          }
        } else {
          PutKeeps(v[1..], key, value);
          var rest := Put(v[1..], key, value);
          forall j | 0 <= j < |rest| ensures Less(v[0].0, rest[j].0) {
            assert rest[j] in rest;
            if rest[j] != (key, value) {
              var i :| 0 <= i < |v[1..]| && v[1..][i] == rest[j];
              assert v[i + 1] == rest[j];
            }
          }
        }
      }
    }
  }

  function EncodePair(p: (string, string)): string
    requires Octets(p.0) && Octets(p.1)
  {
    Escape(p.0) + "=" + Escape(p.1)
  }

  function Encode(v: Values): string
    requires OctetValues(v)
  {
    if v == [] then "" else if |v| == 1 then EncodePair(v[0]) else EncodePair(v[0]) + "&" + Encode(v[1..])
  }

  /** One `key=value` setting; None when it is skipped. */
  function ParseSetting(s: string): Option<(string, string)> {
    var i := Find(s, '=');
    if ';' in s || s == "" then None
    else match (Unescape(s[..i]), Unescape(if i < |s| then s[i + 1..] else ""))
         case (Some(k), Some(x)) => Some((k, x))
         case _ => None
  }

  /** Malformed settings are skipped. */
  function ParseQuery(q: string): Values
    decreases |q|
  {
    if q == "" then [] else
      var i := Find(q, '&');
      var rest := if i < |q| then ParseQuery(q[i + 1..]) else [];
      match ParseSetting(q[..i]) case Some(p) => [p] + rest case None => rest
  }

  lemma SafeExcludes(s: string, c: char)
    requires forall i :: 0 <= i < |s| ==> IsSafe(s[i])
    requires !IsSafe(c)
    ensures c !in s
  {
  }

  lemma ParseOneSetting(p: (string, string))
    requires Octets(p.0) && Octets(p.1)
    ensures EncodePair(p) != "" && forall c :: c in {';', '&', '#'} ==> c !in EncodePair(p)
    ensures Find(EncodePair(p), '=') == |Escape(p.0)|
  {
    var k, x := Escape(p.0), Escape(p.1);
    EscapeIsSafe(p.0);
    EscapeIsSafe(p.1);
    forall c | c in {';', '&', '#', '='} ensures c !in k && c !in x {
      SafeExcludes(k, c);
      SafeExcludes(x, c);
    }
    FindConcat(k, '=', x);
  }

  lemma PairRoundTrip(p: (string, string))
    requires Octets(p.0) && Octets(p.1)
    ensures ParseSetting(EncodePair(p)) == Some(p)
  {
    ParseOneSetting(p);
    var k, s := Escape(p.0), EncodePair(p);
    assert s[..|k|] == k && s[|k| + 1..] == Escape(p.1);
    UnescapeEscape(p.0);
    UnescapeEscape(p.1);
  }

  lemma ParseStep(s: string, t: string)
    requires '&' !in s && s != ""
    ensures ParseQuery(s + "&" + t) == (match ParseSetting(s) case Some(p) => [p] case None => []) + ParseQuery(t)
    ensures ParseQuery(s) == match ParseSetting(s) case Some(p) => [p] case None => []
  {
    FindAbsent(s, '&');
    assert s[..|s|] == s;
    FindConcat(s, '&', t);
    var q := s + "&" + t;
    assert q[..|s|] == s && q[|s| + 1..] == t;
  }

  /** Parsing what Encode prints gives the values back, in order; and the text never holds a fragment mark. */
  lemma {:induction false} QueryRoundTrip(v: Values)
    requires OctetValues(v)
    ensures ParseQuery(Encode(v)) == v && '#' !in Encode(v)
  {
    if v == [] {
    } else {
      ParseOneSetting(v[0]);
      PairRoundTrip(v[0]);
      ParseStep(EncodePair(v[0]), Encode(v[1..]));
      if |v| > 1 {
        QueryRoundTrip(v[1..]);
        assert [v[0]] + v[1..] == v;
      }
    }
  }
}
