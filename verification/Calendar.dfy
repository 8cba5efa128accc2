/** Reset instants on the civil calendar, in unix seconds, at a fixed offset from UTC. */
module Calendar {

  const DAY := 86400
  const UNIX_EPOCH := 719162 // days from 1 January of year 1 to 1 January 1970

  /** The local day of an instant, counted from 1 January 1970. */
  function LocalDay(t: int, offset: int): int { (t + offset) / DAY }

  predicate IsMidnight(t: int, offset: int) { (t + offset) % DAY == 0 }

  // ---- daily ----

  predicate IsTimeOfDay(t: int, offset: int, hh: nat, mm: nat) { (t + offset) % DAY == hh * 3600 + mm * 60 }

  ghost predicate FirstTimeOfDayAfter(now: int, r: int, offset: int, hh: nat, mm: nat) {
    now < r && IsTimeOfDay(r, offset, hh, mm) && forall t :: now < t && IsTimeOfDay(t, offset, hh, mm) ==> r <= t
  }

  function NextDailyReset(now: int, offset: int, hh: nat, mm: nat): int {
    var t := LocalDay(now, offset) * DAY + hh * 3600 + mm * 60 - offset;
    if t > now then t else t + DAY
  }

  lemma SameDay(t: int, u: int)
    requires t % DAY == u % DAY && t - DAY < u < t + DAY
    ensures t == u
  {
  }

  lemma TimeOfDay(d: int, s: int)
    requires 0 <= s < DAY
    ensures (d * DAY + s) % DAY == s
  {
  }

  lemma NextDailyIsFirst(now: int, offset: int, hh: nat, mm: nat)
    requires hh < 24 && mm < 60
    ensures FirstTimeOfDayAfter(now, NextDailyReset(now, offset, hh, mm), offset, hh, mm)
  {
    var r, d, s := NextDailyReset(now, offset, hh, mm), LocalDay(now, offset), hh * 3600 + mm * 60;
    TimeOfDay(d, s);
    TimeOfDay(d + 1, s);
    assert r + offset == (if d * DAY + s - offset > now then d else d + 1) * DAY + s;
    assert now < r <= now + DAY;
    forall t | now < t && IsTimeOfDay(t, offset, hh, mm) ensures r <= t {
      if t < r { SameDay(t + offset, r + offset); }
    }
  }

  // ---- weekly ----

  /** Sunday is 0; 1 January 1970 was a Thursday. */
  function Weekday(day: int): nat { (day + 4) % 7 }

  predicate IsMondayMidnight(t: int, offset: int) { IsMidnight(t, offset) && Weekday(LocalDay(t, offset)) == 1 }

  ghost predicate FirstMondayAfter(now: int, r: int, offset: int) {
    now < r && IsMondayMidnight(r, offset) && forall t :: now < t && IsMondayMidnight(t, offset) ==> r <= t
  }

  function NextWeeklyReset(now: int, offset: int): int {
    var days := (8 - Weekday(LocalDay(now, offset))) % 7;
    (LocalDay(now, offset) + if days == 0 then 7 else days) * DAY - offset
  }

  lemma NextWeeklyIsFirst(now: int, offset: int)
    ensures FirstMondayAfter(now, NextWeeklyReset(now, offset), offset)
  {
    var d := LocalDay(now, offset);
    var r := NextWeeklyReset(now, offset);
    var e := LocalDay(r, offset);
    assert d < e <= d + 7 && Weekday(e) == 1;
    forall t | now < t && IsMondayMidnight(t, offset) ensures r <= t {
      var f := LocalDay(t, offset);
      assert t + offset == f * DAY;
      assert f > d;
      SameWeekday(d, e, f);
    }
  }

  lemma SameWeekday(d: int, e: int, f: int)
    requires d < e <= d + 7 && d < f && Weekday(e) == Weekday(f)
    ensures e <= f
  {
  }

  // ---- monthly ----

  predicate Leap(year: int) { year % 4 == 0 && (year % 100 != 0 || year % 400 == 0) }

  /** Days from 1 January of year 1 to 1 January of `year`. */
  function YearStart(year: int): int { 365 * (year - 1) + (year - 1) / 4 - (year - 1) / 100 + (year - 1) / 400 }

  function DaysIn(month: nat, leap: bool): nat
    requires month < 12
  {
    if month == 1 then if leap then 29 else 28
    else if month in {3, 5, 8, 10} then 30
    else 31
  }

  const DAYS_BEFORE: seq<nat> := [0, 31, 59, 90, 120, 151, 181, 212, 243, 273, 304, 334, 365]

  function DaysBefore(month: nat, leap: bool): nat
    requires month <= 12
  {
    DAYS_BEFORE[month] + if leap && month >= 2 then 1 else 0
  }

  /** First day of a month, in days from 1 January of year 1; months are counted from January of year 1. */
  function MonthStart(month: int): int {
    YearStart(month / 12 + 1) + DaysBefore(month % 12, Leap(month / 12 + 1))
  }

  lemma YearLength(year: int)
    ensures YearStart(year + 1) - YearStart(year) == DaysBefore(12, Leap(year))
  {
    var n := year - 1;
    assert (n + 1) / 4 - n / 4 == if year % 4 == 0 then 1 else 0;
    assert (n + 1) / 100 - n / 100 == if year % 100 == 0 then 1 else 0;
    assert (n + 1) / 400 - n / 400 == if year % 400 == 0 then 1 else 0;
  }

  /** Consecutive month starts are one calendar month apart, across year ends and leap years alike. */
  lemma MonthLength(month: int)
    ensures MonthStart(month + 1) == MonthStart(month) + DaysIn(month % 12, Leap(month / 12 + 1))
  {
    if month % 12 == 11 {
      YearLength(month / 12 + 1);
      assert (month + 1) / 12 == month / 12 + 1;
    } else {
      assert (month + 1) / 12 == month / 12 && (month + 1) % 12 == month % 12 + 1;
    }
  }

  // Only the growth of MonthStart matters for finding the month of a day, so the search is stated for any such f.

  ghost predicate Ladder(f: int -> int) {
    forall a, b {:trigger f(a), f(b)} :: a <= b ==> f(b) >= f(a) + 28 * (b - a)
  }

  lemma {:induction false} Climb(f: int -> int, a: int, b: int)
    requires a <= b && forall m, n {:trigger f(m), f(n)} :: n == m + 1 ==> f(n) >= f(m) + 28
    ensures f(b) >= f(a) + 28 * (b - a)
    decreases b - a
  {
    if a == b {
    } else {
      Climb(f, a, b - 1);
    }
  }

  lemma MonthStep(month: int)
    ensures MonthStart(month + 1) >= MonthStart(month) + 28
  {
    MonthLength(month);
  }

  lemma MonthsAreALadder()
    ensures Ladder(MonthStart)
  {
    var f := MonthStart;
    forall m, n | n == m + 1 ensures f(n) >= f(m) + 28 { MonthStep(m); }
    forall a, b | a <= b ensures f(b) >= f(a) + 28 * (b - a) { Climb(f, a, b); }
  }

  function RungFrom(f: int -> int, day: int, from: int): (m: int)
    requires Ladder(f)
    ensures m <= from && f(m) <= day && (m < from ==> day < f(m + 1))
    decreases if f(from) <= day then 0 else f(from) - day
  {
    if f(from) <= day then from else RungFrom(f, day, from - 1)
  }

  function Rung(f: int -> int, day: int): (m: int)
    requires Ladder(f)
    ensures f(m) <= day < f(m + 1)
  {
    var from := if day < f(0) then 0 else (day - f(0)) / 28;
    assert f(from + 1) >= f(0) + 28 * (from + 1);
    RungFrom(f, day, from)
  }

  lemma RungIsUnique(f: int -> int, day: int, m: int)
    requires Ladder(f) && f(m) <= day < f(m + 1)
    ensures Rung(f, day) == m
  {
    var k := Rung(f, day);
    assert k < m ==> f(m) >= f(k + 1);
    assert m < k ==> f(k) >= f(m + 1);
  }

  ghost predicate StartsRung(f: int -> int, t: int, offset: int) {
    IsMidnight(t, offset) && exists m :: f(m) == LocalDay(t, offset) + UNIX_EPOCH
  }

  function NextRung(f: int -> int, now: int, offset: int): int
    requires Ladder(f)
  {
    (f(Rung(f, LocalDay(now, offset) + UNIX_EPOCH) + 1) - UNIX_EPOCH) * DAY - offset
  }

  lemma NextRungIsFirst(f: int -> int, now: int, offset: int)
    requires Ladder(f)
    ensures now < NextRung(f, now, offset) && StartsRung(f, NextRung(f, now, offset), offset)
    ensures forall t :: now < t && StartsRung(f, t, offset) ==> NextRung(f, now, offset) <= t
  {
    var d := LocalDay(now, offset) + UNIX_EPOCH;
    var m := Rung(f, d);
    var r := NextRung(f, now, offset);
    assert r + offset == (f(m + 1) - UNIX_EPOCH) * DAY;
    assert LocalDay(r, offset) + UNIX_EPOCH == f(m + 1);
    forall t | now < t && StartsRung(f, t, offset) ensures r <= t {
      var e := LocalDay(t, offset) + UNIX_EPOCH;
      assert t + offset == (e - UNIX_EPOCH) * DAY;
      assert d < e;
      var k :| f(k) == e;
      assert k <= m ==> f(m) >= f(k);
      assert m < k ==> f(k) >= f(m + 1);
    }
  }

  ghost predicate IsFirstOfMonth(t: int, offset: int) { StartsRung(MonthStart, t, offset) }

  ghost predicate FirstOfMonthAfter(now: int, r: int, offset: int) {
    now < r && IsFirstOfMonth(r, offset) && forall t :: now < t && IsFirstOfMonth(t, offset) ==> r <= t
  }

  /** The start of the month after the one that contains `now`. */
  function NextMonthlyReset(now: int, offset: int): int {
    MonthsAreALadder();
    NextRung(MonthStart, now, offset)
  }

  lemma NextMonthlyIsFirst(now: int, offset: int)
    ensures FirstOfMonthAfter(now, NextMonthlyReset(now, offset), offset)
  {
    MonthsAreALadder();
    NextRungIsFirst(MonthStart, now, offset);
  }

  lemma EpochStartsAMonth()
    ensures MonthStart(12 * 1969) == UNIX_EPOCH && MonthStart(12 * 1969 + 1) == UNIX_EPOCH + 31
  {
    assert YearStart(1970) == UNIX_EPOCH;
  }

  /** 1 January 1970 was a Thursday and a month start; the first resets after it fall on Monday 5 January and 1
      February. */
  lemma Anchors()
    ensures NextWeeklyReset(0, 0) == 4 * DAY && NextMonthlyReset(0, 0) == 31 * DAY
  {
    EpochStartsAMonth();
    MonthsAreALadder();
    RungIsUnique(MonthStart, UNIX_EPOCH, 12 * 1969);
  }
}
