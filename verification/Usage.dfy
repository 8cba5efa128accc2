/** Per-user usage accounting over resettable counters, with three period counters that roll over on the calendar. */
module Usage {
  import opened Text
  import opened Calendar

  datatype Pair = Pair(up: int, down: int)

  const ZERO := Pair(0, 0)

  /** Deadlines in unix seconds; 0 means not seeded yet. */
  datatype Meta = Meta(daily: int, weekly: int, monthly: int)

  const UNSEEDED := Meta(0, 0, 0)

  datatype Usage = Usage(
    totals: map<string, Pair>, lastRaw: map<string, Pair>,
    daily: map<string, Pair>, weekly: map<string, Pair>, monthly: map<string, Pair>,
    periods: map<string, Meta>, updatedAt: int)

  const NOTHING := Usage(map[], map[], map[], map[], map[], map[], 0)

  function Get(m: map<string, Pair>, e: string): Pair { if e in m then m[e] else ZERO }

  function GetMeta(m: map<string, Meta>, e: string): Meta { if e in m then m[e] else UNSEEDED }

  /** The contribution of a reading: a drop means a fresh baseline. */
  function Delta(last: int, cur: int): int { if cur - last < 0 then cur else cur - last }

  function Deltas(last: Pair, cur: Pair): Pair { Pair(Delta(last.up, cur.up), Delta(last.down, cur.down)) }

  function Positive(d: int): nat { if d > 0 then d else 0 }

  /** Only gains are added. */
  function AddPair(p: Pair, d: Pair): Pair { Pair(p.up + Positive(d.up), p.down + Positive(d.down)) }

  predicate SomeGain(d: Pair) { d.up > 0 || d.down > 0 }

  // ---- what a sync, a full reset and a period check do to the state ----

  ghost function Credited(m: map<string, Pair>, lastRaw: map<string, Pair>, raw: map<string, Pair>): map<string, Pair> {
    map e | e in m.Keys + raw.Keys && (e in m || SomeGain(Deltas(Get(lastRaw, e), raw[e]))) ::
      if e in raw then AddPair(Get(m, e), Deltas(Get(lastRaw, e), raw[e])) else m[e]
  }

  ghost function Synced(u: Usage, raw: map<string, Pair>, now: int): Usage {
    Usage(Credited(u.totals, u.lastRaw, raw), u.lastRaw + raw,
          Credited(u.daily, u.lastRaw, raw), Credited(u.weekly, u.lastRaw, raw), Credited(u.monthly, u.lastRaw, raw),
          u.periods, now)
  }

  ghost function Emails(known: seq<string>): set<string> { set e | e in known }

  function Zeros(emails: set<string>): map<string, Pair> { map e | e in emails :: ZERO }

  function Readings(emails: set<string>, raw: map<string, Pair>): map<string, Pair> {
    map e | e in emails :: Get(raw, e)
  }

  ghost function Emptied(emails: set<string>, raw: map<string, Pair>, now: int): Usage {
    Usage(Zeros(emails), Readings(emails, raw), map[], map[], map[], map[], now)
  }

  ghost function FullyReset(raw: map<string, Pair>, known: seq<string>, now: int): Usage {
    Emptied(raw.Keys + Emails(known), raw, now)
  }

  datatype PeriodUser = PeriodUser(email: string, resetHHMM: string)

  /** The reset time of day, 00:00 when absent or malformed. */
  function ResetTime(s: string): (r: (nat, nat))
    ensures r.0 < 24 && r.1 < 60
  {
    match ParseHHMM(s) case Some(t) => t case None => (0, 0)
  }

  predicate Due(deadline: int, now: int) { deadline != 0 && deadline <= now }

  predicate Stale(deadline: int, now: int) { deadline == 0 || deadline <= now }

  function Rolled(m: map<string, Pair>, e: string, deadline: int, now: int): map<string, Pair> {
    if Due(deadline, now) then m[e := ZERO] else m
  }

  function NextMeta(m: Meta, now: int, offset: int, hhmm: (nat, nat)): Meta {
    Meta(if Stale(m.daily, now) then NextDailyReset(now, offset, hhmm.0, hhmm.1) else m.daily,
         if Stale(m.weekly, now) then NextWeeklyReset(now, offset) else m.weekly,
         if Stale(m.monthly, now) then NextMonthlyReset(now, offset) else m.monthly)
  }

  predicate SomeStale(m: Meta, now: int) { Stale(m.daily, now) || Stale(m.weekly, now) || Stale(m.monthly, now) }

  function CheckedOne(u: Usage, x: PeriodUser, now: int, offset: int): Usage {
    var m := GetMeta(u.periods, x.email);
    u.(daily := Rolled(u.daily, x.email, m.daily, now),
       weekly := Rolled(u.weekly, x.email, m.weekly, now),
       monthly := Rolled(u.monthly, x.email, m.monthly, now),
       periods := u.periods[x.email := NextMeta(m, now, offset, ResetTime(x.resetHHMM))])
  }

  function CheckedAll(u: Usage, users: seq<PeriodUser>, now: int, offset: int): Usage
    decreases |users|
  {
    if users == [] then u else CheckedAll(CheckedOne(u, users[0], now, offset), users[1..], now, offset)
  }

  ghost predicate ChangesAny(u: Usage, users: seq<PeriodUser>, now: int, offset: int)
    decreases |users|
  {
    users != [] &&
    (SomeStale(GetMeta(u.periods, users[0].email), now)
     || ChangesAny(CheckedOne(u, users[0], now, offset), users[1..], now, offset))
  }

  ghost function Checked(u: Usage, users: seq<PeriodUser>, now: int, offset: int): Usage {
    var v := CheckedAll(u, users, now, offset);
    if ChangesAny(u, users, now, offset) then v.(updatedAt := now) else v
  }

  function CreditOne(m: map<string, Pair>, e: string, d: Pair): map<string, Pair> {
    if SomeGain(d) then m[e := AddPair(Get(m, e), d)] else m
  }

  lemma CreditedStep(m: map<string, Pair>, lastRaw: map<string, Pair>, done: map<string, Pair>, e: string, cur: Pair)
    requires e !in done
    ensures Credited(m, lastRaw, done[e := cur])
            == CreditOne(Credited(m, lastRaw, done), e, Deltas(Get(lastRaw, e), cur))
  {
    var d := Deltas(Get(lastRaw, e), cur);
    assert Get(Credited(m, lastRaw, done), e) == Get(m, e);
    assert !SomeGain(d) ==> AddPair(Get(m, e), d) == Get(m, e);
  }

  function SyncedOne(u: Usage, e: string, cur: Pair): Usage {
    var d := Deltas(Get(u.lastRaw, e), cur);
    u.(totals := CreditOne(u.totals, e, d), daily := CreditOne(u.daily, e, d), weekly := CreditOne(u.weekly, e, d),
       monthly := CreditOne(u.monthly, e, d), lastRaw := u.lastRaw[e := cur])
  }

  /** Readings can be processed one at a time, in any order. */
  lemma SyncedStep(u: Usage, done: map<string, Pair>, e: string, cur: Pair, now: int)
    requires e !in done
    ensures Synced(u, done[e := cur], now) == SyncedOne(Synced(u, done, now), e, cur)
  {
    CreditedStep(u.totals, u.lastRaw, done, e, cur);
    CreditedStep(u.daily, u.lastRaw, done, e, cur);
    CreditedStep(u.weekly, u.lastRaw, done, e, cur);
    CreditedStep(u.monthly, u.lastRaw, done, e, cur);
    LastRawStep(u.lastRaw, done, e, cur);
  }

  lemma LastRawStep(lastRaw: map<string, Pair>, done: map<string, Pair>, e: string, cur: Pair)
    requires e !in done
    ensures Get(lastRaw + done, e) == Get(lastRaw, e)
    ensures lastRaw + done[e := cur] == (lastRaw + done)[e := cur]
  {
  }

  lemma SyncedNone(u: Usage, now: int)
    ensures Synced(u, map[], now) == u.(updatedAt := now)
  {
    assert forall m: map<string, Pair> :: Credited(m, u.lastRaw, map[]) == m;
  }

  lemma EmptiedStep(emails: set<string>, raw: map<string, Pair>, e: string, now: int)
    ensures var u := Emptied(emails, raw, now);
            Emptied(emails + {e}, raw, now) == u.(totals := u.totals[e := ZERO], lastRaw := u.lastRaw[e := Get(raw, e)])
  {
  }

  // ---- the state as the package keeps it ----

  class UserState {
    var totals: map<string, Pair>
    var lastRaw: map<string, Pair>
    var daily: map<string, Pair>
    var weekly: map<string, Pair>
    var monthly: map<string, Pair>
    var periods: map<string, Meta>
    var updatedAt: int

    constructor ()
      ensures View() == NOTHING
    {
      totals, lastRaw, daily, weekly, monthly, periods, updatedAt := map[], map[], map[], map[], map[], map[], 0;
    }

    ghost function View(): Usage
      reads this
    {
      Usage(totals, lastRaw, daily, weekly, monthly, periods, updatedAt)
    }

    /** One reading. */
    method SyncUser(email: string, cur: Pair)
      modifies this
      ensures View() == SyncedOne(old(View()), email, cur)
    {
      var last := Get(lastRaw, email);
      var du, dd := cur.up - last.up, cur.down - last.down;
      if du < 0 { du := cur.up; }
      if dd < 0 { dd := cur.down; }
      if du > 0 || dd > 0 {
        totals := totals[email := AddPair(Get(totals, email), Pair(du, dd))];
        daily := daily[email := AddPair(Get(daily, email), Pair(du, dd))];
        weekly := weekly[email := AddPair(Get(weekly, email), Pair(du, dd))];
        monthly := monthly[email := AddPair(Get(monthly, email), Pair(du, dd))];
      }
      lastRaw := lastRaw[email := cur];
    }

    /** The readings may be visited in any order. */
    method SyncUsers(raw: map<string, Pair>, now: int)
      modifies this
      ensures View() == Synced(old(View()), raw, now)
    {
      var pending := raw.Keys;
      ghost var was, done: map<string, Pair> := View(), map[];
      SyncedNone(was, was.updatedAt);
      while pending != {}
        invariant pending <= raw.Keys && done.Keys == raw.Keys - pending
        invariant forall e :: e in done ==> done[e] == raw[e]
        invariant View() == Synced(was, done, was.updatedAt)
        decreases pending
      {
        var email :| email in pending;
        SyncedStep(was, done, email, raw[email], was.updatedAt);
        SyncUser(email, raw[email]);
        pending := pending - {email};
        done := done[email := raw[email]];
      }
      assert done == raw;
      updatedAt := now;
    }

    method ResetUser(email: string, reading: Pair)
      modifies this`totals, this`lastRaw
      ensures totals == old(totals)[email := ZERO] && lastRaw == old(lastRaw)[email := reading]
    {
      totals := totals[email := ZERO];
      lastRaw := lastRaw[email := reading];
    }

    /** The first loop of ResetUsers, over the known users. */
    method ResetKnown(raw: map<string, Pair>, known: seq<string>)
      requires View() == Emptied({}, raw, updatedAt)
      modifies this`totals, this`lastRaw
      ensures View() == Emptied(Emails(known), raw, updatedAt)
    {
      ghost var emails: set<string> := {};
      for i := 0 to |known|
        invariant emails == Emails(known[..i]) && View() == Emptied(emails, raw, updatedAt)
      {
        EmptiedStep(emails, raw, known[i], updatedAt);
        ResetUser(known[i], Get(raw, known[i]));
        assert known[..i + 1] == known[..i] + [known[i]];
        emails := emails + {known[i]};
      }
      assert known[..|known|] == known;
    }

    /** The second loop, over the readings. */
    method ResetRead(raw: map<string, Pair>, ghost done: set<string>)
      requires View() == Emptied(done, raw, updatedAt)
      modifies this`totals, this`lastRaw
      ensures View() == Emptied(raw.Keys + done, raw, updatedAt)
    {
      var pending := raw.Keys;
      ghost var emails := done;
      while pending != {}
        invariant pending <= raw.Keys && emails == done + (raw.Keys - pending)
        invariant View() == Emptied(emails, raw, updatedAt)
        decreases pending
      {
        var email :| email in pending;
        EmptiedStep(emails, raw, email, updatedAt);
        ResetUser(email, raw[email]);
        pending := pending - {email};
        emails := emails + {email};
      }
      assert emails == raw.Keys + done;
    }

    /** Known users restart from their present reading, or from zero when there is none; everyone else is forgotten. */
    method ResetUsers(raw: map<string, Pair>, known: seq<string>, now: int)
      modifies this
      ensures View() == FullyReset(raw, known, now)
    {
      totals, lastRaw, daily, weekly, monthly, periods := map[], map[], map[], map[], map[], map[];
      ResetKnown(raw, known);
      ResetRead(raw, Emails(known));
      updatedAt := now;
    }

    /** One user of the period check. */
    method CheckUser(u: PeriodUser, now: int, offset: int) returns (changed: bool)
      modifies this`daily, this`weekly, this`monthly, this`periods
      ensures View() == CheckedOne(old(View()), u, now, offset)
      ensures changed == SomeStale(GetMeta(old(periods), u.email), now)
    {
      changed := false;
      var meta := GetMeta(periods, u.email);
      var (hh, mm) := ResetTime(u.resetHHMM);
      if meta.daily == 0 {
        meta := meta.(daily := NextDailyReset(now, offset, hh, mm));
        changed := true;
      } else if now >= meta.daily {
        daily := daily[u.email := ZERO];
        meta := meta.(daily := NextDailyReset(now, offset, hh, mm));
        changed := true;
      }
      if meta.weekly == 0 {
        meta := meta.(weekly := NextWeeklyReset(now, offset));
        changed := true;
      } else if now >= meta.weekly {
        weekly := weekly[u.email := ZERO];
        meta := meta.(weekly := NextWeeklyReset(now, offset));
        changed := true;
      }
      if meta.monthly == 0 {
        meta := meta.(monthly := NextMonthlyReset(now, offset));
        changed := true;
      } else if now >= meta.monthly {
        monthly := monthly[u.email := ZERO];
        meta := meta.(monthly := NextMonthlyReset(now, offset));
        changed := true;
      }
      periods := periods[u.email := meta];
    }

    /** Users may be listed more than once; the flag tells whether anything was seeded or rolled over. */
    method ApplyPeriodResets(users: seq<PeriodUser>, now: int, offset: int) returns (changed: bool)
      modifies this
      ensures View() == Checked(old(View()), users, now, offset)
      ensures changed <==> ChangesAny(old(View()), users, now, offset)
    {
      changed := false;
      for i := 0 to |users|
        invariant CheckedAll(View(), users[i..], now, offset) == CheckedAll(old(View()), users, now, offset)
        invariant changed || ChangesAny(View(), users[i..], now, offset)
                <==> ChangesAny(old(View()), users, now, offset)
        invariant updatedAt == old(updatedAt)
      {
        assert users[i..][0] == users[i] && users[i..][1..] == users[i + 1..];
        var c := CheckUser(users[i], now, offset);
        changed := changed || c;
      }
      if changed { updatedAt := now; }
    }
  }
}
