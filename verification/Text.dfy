/** Strings as the Go sources use them: byte order, decimal numerals, and splitting. */
module Text {

  datatype Option<+T> = None | Some(value: T)

  /** Go's `<` on strings. */
  predicate Less(a: string, b: string)
    decreases |a|
  {
    |b| > 0 && (|a| == 0 || a[0] < b[0] || (a[0] == b[0] && Less(a[1..], b[1..])))
  }

  lemma {:induction false} LessTransitive(a: string, b: string, c: string)
    requires Less(a, b) && Less(b, c)
    ensures Less(a, c)
    decreases |a|
  {
    if |a| == 0 || a[0] < b[0] || b[0] < c[0] {
    } else {
      LessTransitive(a[1..], b[1..], c[1..]);
    }
  }

  lemma {:induction false} LessTotal(a: string, b: string)
    ensures (if Less(a, b) then 1 else 0) + (if Less(b, a) then 1 else 0) + (if a == b then 1 else 0) == 1
    decreases |a|
  {
    if |a| == 0 || |b| == 0 || a[0] != b[0] {
    } else {
      LessTotal(a[1..], b[1..]);
      assert a == [a[0]] + a[1..] && b == [b[0]] + b[1..];
    }
  }

  /** `a` and `b` part at `i`, where `a` ends or has the smaller octet. */
  ghost predicate PartsAt(a: string, b: string, i: nat) {
    i <= |a| && i < |b| && a[..i] == b[..i] && (i == |a| || a[i] < b[i])
  }

  lemma PartsLater(a: string, b: string, i: nat)
    requires PartsAt(a, b, i)
    ensures i > 0 ==> |a| > 0 && a[0] == b[0]
  {
    if i > 0 { assert a[..i][0] == b[..i][0]; }
  }

  /** `Less` is the lexicographic order. */
  lemma {:induction false} LessIff(a: string, b: string)
    ensures Less(a, b) <==> exists i: nat :: PartsAt(a, b, i)
    decreases |a|
  {
    if |a| == 0 || |b| == 0 || a[0] != b[0] {
      if Less(a, b) { assert PartsAt(a, b, 0); }
      forall i: nat | PartsAt(a, b, i) ensures i == 0 { PartsLater(a, b, i); }
    } else {
      LessIff(a[1..], b[1..]);
      if i: nat :| PartsAt(a[1..], b[1..], i) {
        assert a[..i + 1] == [a[0]] + a[1..][..i] && b[..i + 1] == [b[0]] + b[1..][..i];
        assert PartsAt(a, b, i + 1);
      }
      if i: nat :| PartsAt(a, b, i) {
        assert a[1..][..i - 1] == a[..i][1..] == b[..i][1..] == b[1..][..i - 1];
        assert PartsAt(a[1..], b[1..], i - 1);
      }
    }
  }

  /** Index of the first `c`, or |s| when there is none. */
  function Find(s: string, c: char): (i: nat)
    ensures i <= |s| && c !in s[..i]
    ensures i < |s| ==> s[i] == c
  {
    if s == [] then 0
    else if s[0] == c then 0
    else
      var i := Find(s[1..], c);
      assert s[..i + 1] == [s[0]] + s[1..][..i];
      i + 1
  }

  /** One more than the index of the last `c`, or 0 when there is none. */
  function FindLast(s: string, c: char): (i: nat)
    ensures i <= |s| && c !in s[i..]
    ensures i > 0 ==> s[i - 1] == c
  {
    if s == [] then 0
    else if s[|s| - 1] == c then |s|
    else
      var i := FindLast(s[..|s| - 1], c);
      assert s[i..] == s[..|s| - 1][i..] + [s[|s| - 1]];
      i
  }

  /** `Find` and `FindLast` stop exactly at a separator that the other side does not contain. */
  lemma FindConcat(a: string, c: char, b: string)
    requires c !in a
    ensures Find(a + [c] + b, c) == |a|
  {
    var s := a + [c] + b;
    var i := Find(s, c);
    forall k | 0 <= k < i ensures s[k] != c { assert s[k] == s[..i][k]; }
    forall k | 0 <= k < |a| ensures s[k] != c { assert s[k] == a[k]; }
    assert s[|a|] == c;
  }

  lemma FindLastConcat(a: string, c: char, b: string)
    requires c !in b
    ensures FindLast(a + [c] + b, c) == |a| + 1
  {
    var s := a + [c] + b;
    LastAt(s, c, |a|);
  }

  lemma LastAt(s: string, c: char, at: nat)
    requires at < |s| && s[at] == c && forall k :: at < k < |s| ==> s[k] != c
    ensures FindLast(s, c) == at + 1
  {
    var i := FindLast(s, c);
    assert forall k :: i <= k < |s| ==> s[k] == s[i..][k - i];
  }

  lemma FindAbsent(s: string, c: char)
    requires c !in s
    ensures Find(s, c) == |s|
  {
  }

  predicate IsDigit(c: char) { '0' <= c <= '9' }

  predicate AllDigits(s: string) { forall i :: 0 <= i < |s| ==> IsDigit(s[i]) }

  function DigitChar(d: nat): (c: char)
    requires d < 10
    ensures IsDigit(c) && c as int == '0' as int + d
  {
    ('0' as int + d) as char
  }

  /** `%d` on a natural number. */
  function Numeral(n: nat): (s: string)
    ensures s != "" && AllDigits(s)
  {
    if n < 10 then [DigitChar(n)] else Numeral(n / 10) + [DigitChar(n % 10)]
  }

  /** `%d` on an int. */
  function Itoa(n: int): string {
    if n < 0 then "-" + Numeral(-n) else Numeral(n)
  }

  function DigitsValue(s: string): int
    requires AllDigits(s)
  {
    if s == "" then 0 else 10 * DigitsValue(s[..|s| - 1]) + (s[|s| - 1] as int - '0' as int)
  }

  /** strconv.Atoi: an optional sign and at least one digit. */
  function Atoi(s: string): Option<int> {
    var body := if s != "" && (s[0] == '-' || s[0] == '+') then s[1..] else s;
    if body == "" || !AllDigits(body) then None
    else if s[0] == '-' then Some(-DigitsValue(body))
    else Some(DigitsValue(body))
  }

  lemma {:induction false} NumeralValue(n: nat)
    ensures DigitsValue(Numeral(n)) == n
  {
    if n < 10 {
    } else {
      NumeralValue(n / 10);
      var s := Numeral(n);
      assert s[..|s| - 1] == Numeral(n / 10);
    }
  }

  /** Printing an int and reading it back gives the same int. */
  lemma AtoiItoa(n: int)
    ensures Atoi(Itoa(n)) == Some(n)
  {
    var m := if n < 0 then -n else n;
    NumeralValue(m);
    if n < 0 {
      assert Itoa(n)[1..] == Numeral(m);
    } else {
      assert IsDigit(Numeral(m)[0]);
    }
  }

  /** net.SplitHostPort, including the bracketed form; the port part is not yet a number. */
  function SplitHostPort(s: string): Option<(string, string)> {
    var i := FindLast(s, ':');
    if i == 0 then None
    else if s[0] == '[' then
      var end := Find(s, ']');
      if end == |s| || end + 2 != i || '[' in s[1..] || ']' in s[end + 1..] then None
      else Some((s[1..end], s[i..]))
    else if ':' in s[..i - 1] || '[' in s || ']' in s then None
    else Some((s[..i - 1], s[i..]))
  }

  predicate NoBrackets(s: string) { '[' !in s && ']' !in s }

  /** `host:port`, or `[host]:port` for a host with colons. */
  lemma HostPortSplits(host: string, port: string)
    requires NoBrackets(host) && NoBrackets(port) && ':' !in port
    ensures ':' !in host ==> SplitHostPort(host + ":" + port) == Some((host, port))
    ensures SplitHostPort("[" + host + "]:" + port) == Some((host, port))
  {
    var s := host + ":" + port;
    FindLastConcat(host, ':', port);
    assert s[..|host|] == host && s[|host| + 1..] == port;
    Bracketed(host, port);
  }

  lemma Bracketed(host: string, port: string)
    requires NoBrackets(host) && NoBrackets(port) && ':' !in port
    ensures SplitHostPort("[" + host + "]:" + port) == Some((host, port))
  {
    var s := "[" + host + "]:" + port;
    FindLastConcat("[" + host + "]", ':', port);
    assert "[" + host + "]" + ":" + port == s == ("[" + host) + "]" + (":" + port);
    FindConcat("[" + host, ']', ":" + port);
    BracketedParts(host, port);
  }

  lemma BracketedParts(host: string, port: string)
    requires NoBrackets(host) && NoBrackets(port)
    ensures var s := "[" + host + "]:" + port;
            && '[' !in s[1..] && ']' !in s[|host| + 2..]
            && s[1..|host| + 1] == host && s[|host| + 3..] == port
  {
    var s := "[" + host + "]:" + port;
    assert s[1..] == host + "]:" + port && s[|host| + 2..] == ":" + port;
  }

  /** Nothing else is split. */
  lemma SplitIsHostPort(s: string)
    requires SplitHostPort(s).Some?
    ensures var (host, port) := SplitHostPort(s).value;
            && NoBrackets(host) && NoBrackets(port) && ':' !in port
            && (s == "[" + host + "]:" + port || (':' !in host && s == host + ":" + port))
  {
    var i := FindLast(s, ':');
    var (host, port) := SplitHostPort(s).value;
    assert s == s[..i - 1] + ":" + s[i..];
    if s[0] == '[' {
      var end := Find(s, ']');
      assert s[..end + 1] == "[" + s[1..end] + "]";
      assert s[..i - 1] == s[..end + 1];
      assert forall c :: c in host ==> c in s[1..] && c in s[..end];
      assert forall c :: c in port ==> c in s[1..] && c in s[end + 1..];
    }
  }

  predicate IsSpace(c: char) { c in " \t\n\r" || c == '\U{0B}' || c == '\U{0C}' }

  function TrimSpace(s: string): string
    decreases |s|
  {
    if s == "" then s
    else if IsSpace(s[0]) then TrimSpace(s[1..])
    else if IsSpace(s[|s| - 1]) then TrimSpace(s[..|s| - 1])
    else s
  }

  /** "HH:MM" on a 24-hour clock; None for anything else. */
  function ParseHHMM(s: string): (r: Option<(nat, nat)>)
    ensures r.Some? ==> r.value.0 < 24 && r.value.1 < 60
  {
    var t := TrimSpace(s);
    var i := Find(t, ':');
    if i == |t| || ':' in t[i + 1..] then None
    else
      match (Atoi(t[..i]), Atoi(t[i + 1..]))
      case (Some(h), Some(m)) => if 0 <= h < 24 && 0 <= m < 60 then Some((h, m)) else None
      case _ => None
  }

  // ---- what a time of day looks like ----

  ghost predicate AllSpaces(s: string) { forall i :: 0 <= i < |s| ==> IsSpace(s[i]) }

  /** Spaces around `t` make it `s`. */
  ghost predicate Pads(s: string, pre: string, t: string, post: string) {
    s == pre + t + post && AllSpaces(pre) && AllSpaces(post)
  }

  lemma PadsMore(s: string, pre: string, t: string, post: string, c: char)
    requires Pads(s, pre, t, post) && IsSpace(c)
    ensures Pads([c] + s, [c] + pre, t, post) && Pads(s + [c], pre, t, post + [c])
  {
  }

  lemma {:induction false} TrimIs(s: string)
    ensures exists pre, post :: Pads(s, pre, TrimSpace(s), post)
    decreases |s|
  {
    if s != "" && IsSpace(s[0]) {
      TrimIs(s[1..]);
      var pre, post :| Pads(s[1..], pre, TrimSpace(s), post);
      assert s == [s[0]] + s[1..];
      PadsMore(s[1..], pre, TrimSpace(s), post, s[0]);
    } else if s != "" && IsSpace(s[|s| - 1]) {
      TrimIs(s[..|s| - 1]);
      var pre, post :| Pads(s[..|s| - 1], pre, TrimSpace(s), post);
      assert s == s[..|s| - 1] + [s[|s| - 1]];
      PadsMore(s[..|s| - 1], pre, TrimSpace(s), post, s[|s| - 1]);
    } else {
      assert Pads(s, "", TrimSpace(s), "");
    }
  }

  lemma {:induction false} TrimPadded(pre: string, t: string, post: string)
    requires AllSpaces(pre) && AllSpaces(post) && t != "" && !IsSpace(t[0]) && !IsSpace(t[|t| - 1])
    ensures TrimSpace(pre + t + post) == t
    decreases |pre| + |post|
  {
    var s := pre + t + post;
    if pre != "" {
      assert s[1..] == pre[1..] + t + post;
      TrimPadded(pre[1..], t, post);
    } else if post != "" {
      assert s[..|s| - 1] == pre + t + post[..|post| - 1];
      TrimPadded(pre, t, post[..|post| - 1]);
    } else {
      assert s == t;
    }
  }

  lemma AtoiShape(s: string)
    requires Atoi(s).Some?
    ensures s != "" && ':' !in s && !IsSpace(s[0]) && !IsSpace(s[|s| - 1])
  {
    var body := if s[0] == '-' || s[0] == '+' then s[1..] else s;
    assert IsDigit(body[|body| - 1]) && body[|body| - 1] == s[|s| - 1];
    forall k | 0 <= k < |s| ensures s[k] != ':' {
      if k > 0 { assert IsDigit(body[k - (|s| - |body|)]); }
    }
  }

  ghost predicate ClockText(s: string, pre: string, a: string, b: string, post: string) {
    s == pre + a + ":" + b + post && AllSpaces(pre) && AllSpaces(post)
  }

  /** The text reads, spaces around it aside, as the hour, a colon and the minute. */
  ghost predicate IsClock(s: string, h: nat, m: nat) {
    && h < 24 && m < 60
    && exists pre, a, b, post :: ClockText(s, pre, a, b, post) && Atoi(a) == Some(h) && Atoi(b) == Some(m)
  }

  lemma ClockParses(s: string, pre: string, a: string, b: string, post: string, h: nat, m: nat)
    requires ClockText(s, pre, a, b, post) && Atoi(a) == Some(h) && Atoi(b) == Some(m) && h < 24 && m < 60
    ensures ParseHHMM(s) == Some((h, m))
  {
    AtoiShape(a);
    AtoiShape(b);
    var t := a + ":" + b;
    assert s == pre + t + post;
    TrimPadded(pre, t, post);
    FindConcat(a, ':', b);
    assert t[..|a|] == a && t[|a| + 1..] == b;
  }

  lemma ParsedIsClock(s: string)
    requires ParseHHMM(s).Some?
    ensures IsClock(s, ParseHHMM(s).value.0, ParseHHMM(s).value.1)
  {
    TrimIs(s);
    var t := TrimSpace(s);
    var pre, post :| Pads(s, pre, t, post);
    var i := Find(t, ':');
    SplitAtColon(pre, t, post, i);
    assert ClockText(s, pre, t[..i], t[i + 1..], post);
  }

  lemma SplitAtColon(pre: string, t: string, post: string, i: nat)
    requires i < |t| && t[i] == ':'
    ensures pre + t + post == pre + t[..i] + ":" + t[i + 1..] + post
  {
    assert t == t[..i] + ":" + t[i + 1..];
  }

  /** A text is accepted exactly when it is the hour, a colon and the minute, and gives that hour and that minute. */
  lemma ParseHHMMIff(s: string, h: nat, m: nat)
    ensures ParseHHMM(s) == Some((h, m)) <==> IsClock(s, h, m)
  {
    if IsClock(s, h, m) {
      var pre, a, b, post :| ClockText(s, pre, a, b, post) && Atoi(a) == Some(h) && Atoi(b) == Some(m);
      ClockParses(s, pre, a, b, post, h, m);
    }
    if ParseHHMM(s) == Some((h, m)) { ParsedIsClock(s); }
  }

  /** `%02d` */
  function TwoDigits(n: nat): string
    requires n < 100
  {
    [DigitChar(n / 10), DigitChar(n % 10)]
  }

  lemma AtoiTwoDigits(n: nat)
    requires n < 100
    ensures Atoi(TwoDigits(n)) == Some(n)
  {
    var s := TwoDigits(n);
    assert s[..1][..0] == "" && DigitsValue(s[..1]) == n / 10;
  }

  /** In particular `%02d:%02d`, with spaces around it or not, reads as it was written. */
  lemma TwoDigitClock(s: string, pre: string, h: nat, m: nat, post: string)
    requires h < 24 && m < 60 && AllSpaces(pre) && AllSpaces(post)
    requires s == pre + TwoDigits(h) + ":" + TwoDigits(m) + post
    ensures IsClock(s, h, m) && ParseHHMM(s) == Some((h, m))
  {
    AtoiTwoDigits(h);
    AtoiTwoDigits(m);
    assert ClockText(s, pre, TwoDigits(h), TwoDigits(m), post);
    ClockParses(s, pre, TwoDigits(h), TwoDigits(m), post, h, m);
  }
}
