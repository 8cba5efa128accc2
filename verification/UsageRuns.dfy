/** Accounting over whole runs of traffic, counter resets, syncs, period checks and full resets. */
module UsageRuns {
  import opened Text
  import opened Calendar
  import opened Usage

  // ---- one period check ----

  ghost predicate Listed(users: seq<PeriodUser>, e: string) { exists i :: 0 <= i < |users| && users[i].email == e }

  datatype Period = Daily | Weekly | Monthly

  function CounterOf(u: Usage, p: Period): map<string, Pair> {
    match p case Daily => u.daily case Weekly => u.weekly case Monthly => u.monthly
  }

  function DeadlineOf(m: Meta, p: Period): int {
    match p case Daily => m.daily case Weekly => m.weekly case Monthly => m.monthly
  }

  function Deadline(u: Usage, e: string, p: Period): int { DeadlineOf(GetMeta(u.periods, e), p) }

  /** `r` is the first HH:MM, Monday midnight or first of the month strictly after `now`. */
  ghost predicate FirstBoundary(now: int, r: int, offset: int, p: Period, hhmm: (nat, nat)) {
    match p
    case Daily => FirstTimeOfDayAfter(now, r, offset, hhmm.0, hhmm.1)
    case Weekly => FirstMondayAfter(now, r, offset)
    case Monthly => FirstOfMonthAfter(now, r, offset)
  }

  /** A stale deadline moves to the first boundary after now, a live one stays. */
  lemma NextMetaIsFirst(m: Meta, now: int, offset: int, hhmm: (nat, nat), p: Period)
    requires hhmm.0 < 24 && hhmm.1 < 60
    ensures var d, d' := DeadlineOf(m, p), DeadlineOf(NextMeta(m, now, offset, hhmm), p);
            if Stale(d, now) then FirstBoundary(now, d', offset, p, hhmm) else d' == d > now
  {
    match p
    case Daily => NextDailyIsFirst(now, offset, hhmm.0, hhmm.1);
    case Weekly => NextWeeklyIsFirst(now, offset);
    case Monthly => NextMonthlyIsFirst(now, offset);
  }

  /** What the check of user `x` does to user `e`. */
  ghost predicate OneEffect(u: Usage, v: Usage, x: PeriodUser, now: int, offset: int, e: string, p: Period) {
    && v.totals == u.totals && v.lastRaw == u.lastRaw
    && (e != x.email ==>
          Deadline(v, e, p) == Deadline(u, e, p) && Get(CounterOf(v, p), e) == Get(CounterOf(u, p), e))
    && (e == x.email ==>
          && Get(CounterOf(v, p), e) == (if Due(Deadline(u, e, p), now) then ZERO else Get(CounterOf(u, p), e))
          && Deadline(v, e, p) > now
          && (if Stale(Deadline(u, e, p), now)
              then FirstBoundary(now, Deadline(v, e, p), offset, p, ResetTime(x.resetHHMM))
              else Deadline(v, e, p) == Deadline(u, e, p)))
  }

  lemma CheckedOneEffect(u: Usage, x: PeriodUser, now: int, offset: int, e: string, p: Period)
    ensures OneEffect(u, CheckedOne(u, x, now, offset), x, now, offset, e, p)
  {
    NextMetaIsFirst(GetMeta(u.periods, x.email), now, offset, ResetTime(x.resetHHMM), p);
  }

  /** `d` is the first boundary after `now` for one of the listed reset times of user `e`. */
  ghost predicate BoundaryOfListed(d: int, users: seq<PeriodUser>, now: int, offset: int, e: string, p: Period) {
    exists x :: x in users && x.email == e && FirstBoundary(now, d, offset, p, ResetTime(x.resetHHMM))
  }

  /** What the check of a list of users does to user `e`: nothing when not listed; otherwise the counter is zeroed
      exactly when its deadline had been seeded and has passed, and the deadline ends in the future, at a first
      boundary after now if it was stale. */
  ghost predicate AllEffect(u: Usage, v: Usage, users: seq<PeriodUser>, now: int, offset: int, e: string, p: Period) {
    && v.totals == u.totals && v.lastRaw == u.lastRaw
    && (!Listed(users, e) ==>
          Deadline(v, e, p) == Deadline(u, e, p) && Get(CounterOf(v, p), e) == Get(CounterOf(u, p), e))
    && (Listed(users, e) ==>
          && Get(CounterOf(v, p), e) == (if 0 != Deadline(u, e, p) <= now then ZERO else Get(CounterOf(u, p), e))
          && Deadline(v, e, p) > now
          && (if Deadline(u, e, p) == 0 || Deadline(u, e, p) <= now
              then BoundaryOfListed(Deadline(v, e, p), users, now, offset, e, p)
              else Deadline(v, e, p) == Deadline(u, e, p)))
  }

  lemma ListedCons(users: seq<PeriodUser>, e: string)
    requires users != []
    ensures Listed(users, e) <==> users[0].email == e || Listed(users[1..], e)
  {
    if Listed(users[1..], e) {
      var i :| 0 <= i < |users[1..]| && users[1..][i].email == e;
      assert users[i + 1].email == e;
    }
    if i :| 0 < i < |users| && users[i].email == e { assert users[1..][i - 1].email == e; }
  }

  lemma EffectCons(u: Usage, w: Usage, v: Usage, users: seq<PeriodUser>, now: int, offset: int, e: string, p: Period)
    requires users != [] && OneEffect(u, w, users[0], now, offset, e, p)
    requires AllEffect(w, v, users[1..], now, offset, e, p)
    ensures AllEffect(u, v, users, now, offset, e, p)
  {
    ListedCons(users, e);
    if BoundaryOfListed(Deadline(v, e, p), users[1..], now, offset, e, p) {
      assert BoundaryOfListed(Deadline(v, e, p), users, now, offset, e, p);
    }
    assert users[0] in users;
  }

  /** A whole check has this effect, once however many boundaries were missed. */
  lemma {:induction false} CheckedAllEffect(u: Usage, users: seq<PeriodUser>, now: int, offset: int, e: string,
                                            p: Period)
    ensures AllEffect(u, CheckedAll(u, users, now, offset), users, now, offset, e, p)
    decreases |users|
  {
    if users == [] {
    } else {
      var w := CheckedOne(u, users[0], now, offset);
      CheckedOneEffect(u, users[0], now, offset, e, p);
      CheckedAllEffect(w, users[1..], now, offset, e, p);
      EffectCons(u, w, CheckedAll(w, users[1..], now, offset), users, now, offset, e, p);
    }
  }

  /** The hour and minute that a text of a reset time stands for: those it reads as, and midnight if it reads as
      none. */
  ghost predicate StandsFor(s: string, hh: nat, mm: nat) {
    IsClock(s, hh, mm) || (hh == mm == 0 && forall h, m :: !IsClock(s, h, m))
  }

  lemma ResetTimeIff(s: string, hh: nat, mm: nat)
    ensures ResetTime(s) == (hh, mm) <==> StandsFor(s, hh, mm)
  {
    ParseHHMMIff(s, hh, mm);
    if ParseHHMM(s).Some? { ParsedIsClock(s); }
    forall h: nat, m: nat | IsClock(s, h, m) ensures ParseHHMM(s).Some? { ParseHHMMIff(s, h, m); }
  }

  /** From the text in the configuration to the deadline: a stale daily deadline of a listed user moves to the first
      moment after now at the hour and minute that the user's reset time stands for. */
  lemma DailyIsAtWrittenTime(u: Usage, users: seq<PeriodUser>, now: int, offset: int, x: PeriodUser, hh: nat, mm: nat)
    requires x in users && (forall y :: y in users && y.email == x.email ==> y.resetHHMM == x.resetHHMM)
    requires StandsFor(x.resetHHMM, hh, mm)
    requires Deadline(u, x.email, Daily) == 0 || Deadline(u, x.email, Daily) <= now
    ensures FirstTimeOfDayAfter(now, Deadline(Checked(u, users, now, offset), x.email, Daily), offset, hh, mm)
  {
    ResetTimeIff(x.resetHHMM, hh, mm);
    CheckedAllEffect(u, users, now, offset, x.email, Daily);
    assert Listed(users, x.email);
  }

  /** For a time written with two digits each, with spaces around it or not. */
  lemma TwoDigitsAreTheTime(u: Usage, users: seq<PeriodUser>, now: int, offset: int, x: PeriodUser,
                            pre: string, hh: nat, mm: nat, post: string)
    requires x in users && (forall y :: y in users && y.email == x.email ==> y.resetHHMM == x.resetHHMM)
    requires hh < 24 && mm < 60 && AllSpaces(pre) && AllSpaces(post)
    requires x.resetHHMM == pre + TwoDigits(hh) + ":" + TwoDigits(mm) + post
    requires Deadline(u, x.email, Daily) == 0 || Deadline(u, x.email, Daily) <= now
    ensures var deadline := Deadline(Checked(u, users, now, offset), x.email, Daily);
            && now < deadline <= now + 86400
            && (deadline + offset) % 86400 == hh * 3600 + mm * 60
  {
    TwoDigitClock(x.resetHHMM, pre, hh, mm, post);
    DailyIsAtWrittenTime(u, users, now, offset, x, hh, mm);
    FirstIsWithinADay(now, Deadline(Checked(u, users, now, offset), x.email, Daily), offset, hh, mm);
  }

  lemma FirstIsWithinADay(now: int, r: int, offset: int, hh: nat, mm: nat)
    requires hh < 24 && mm < 60 && FirstTimeOfDayAfter(now, r, offset, hh, mm)
    ensures r <= now + 86400
  {
    NextDailyIsFirst(now, offset, hh, mm);
  }

  predicate AllAhead(m: Meta, now: int) { m.daily > now && m.weekly > now && m.monthly > now }

  /** After a check every deadline of a listed user lies in the future. */
  ghost predicate AllFuture(periods: map<string, Meta>, users: seq<PeriodUser>, now: int) {
    forall x :: x in users ==> x.email in periods && AllAhead(periods[x.email], now)
  }

  lemma {:induction false} CheckedKeepsKeys(u: Usage, users: seq<PeriodUser>, now: int, offset: int)
    ensures u.periods.Keys <= CheckedAll(u, users, now, offset).periods.Keys
    ensures forall x :: x in users ==> x.email in CheckedAll(u, users, now, offset).periods
    decreases |users|
  {
    if users == [] {
    } else {
      CheckedKeepsKeys(CheckedOne(u, users[0], now, offset), users[1..], now, offset);
    }
  }

  lemma DeadlineIsAhead(u: Usage, users: seq<PeriodUser>, now: int, offset: int, x: PeriodUser, p: Period)
    requires x in users
    ensures Deadline(CheckedAll(u, users, now, offset), x.email, p) > now
  {
    CheckedAllEffect(u, users, now, offset, x.email, p);
    assert Listed(users, x.email);
  }

  lemma CheckedIsAhead(u: Usage, users: seq<PeriodUser>, now: int, offset: int, x: PeriodUser)
    requires x in users
    ensures AllAhead(GetMeta(CheckedAll(u, users, now, offset).periods, x.email), now)
  {
    DeadlineIsAhead(u, users, now, offset, x, Daily);
    DeadlineIsAhead(u, users, now, offset, x, Weekly);
    DeadlineIsAhead(u, users, now, offset, x, Monthly);
  }

  lemma CheckedIsFuture(u: Usage, users: seq<PeriodUser>, now: int, offset: int)
    ensures AllFuture(CheckedAll(u, users, now, offset).periods, users, now)
  {
    CheckedKeepsKeys(u, users, now, offset);
    forall x | x in users ensures AllAhead(GetMeta(CheckedAll(u, users, now, offset).periods, x.email), now) {
      CheckedIsAhead(u, users, now, offset, x);
    }
  }

  lemma FutureUserIsSettled(u: Usage, x: PeriodUser, now: int, offset: int)
    requires now >= 0 && x.email in u.periods && AllAhead(u.periods[x.email], now)
    ensures CheckedOne(u, x, now, offset) == u && !SomeStale(GetMeta(u.periods, x.email), now)
  {
    assert u.periods[x.email := u.periods[x.email]] == u.periods;
  }

  lemma {:induction false} FutureIsSettled(u: Usage, users: seq<PeriodUser>, now: int, offset: int)
    requires now >= 0 && AllFuture(u.periods, users, now)
    ensures CheckedAll(u, users, now, offset) == u && !ChangesAny(u, users, now, offset)
    decreases |users|
  {
    if users == [] {
    } else {
      FutureUserIsSettled(u, users[0], now, offset);
      FutureIsSettled(u, users[1..], now, offset);
    }
  }

  /** A second check at the same instant changes nothing and reports no change. */
  lemma CheckIsIdempotent(u: Usage, users: seq<PeriodUser>, now: int, offset: int)
    requires now >= 0
    ensures var v := Checked(u, users, now, offset);
            Checked(v, users, now, offset) == v && !ChangesAny(v, users, now, offset)
  {
    CheckedIsFuture(u, users, now, offset);
    FutureIsSettled(Checked(u, users, now, offset), users, now, offset);
  }

  // ---- runs ----

  /** Traffic moves a user's counters up; xray may zero or forget them at any time. */
  datatype Event =
    | Traffic(email: string, up: nat, down: nat)
    | CounterZeroed(email: string)
    | CounterForgotten(email: string)
    | SyncTick(now: int)
    | PeriodTick(users: seq<PeriodUser>, now: int, offset: int)
    | ResetAll(known: seq<string>, now: int)

  datatype World = World(counters: map<string, Pair>, usage: Usage)

  const START := World(map[], NOTHING)

  ghost function Step(w: World, e: Event): World {
    match e
    case Traffic(x, up, down) =>
      w.(counters := w.counters[x := Pair(Get(w.counters, x).up + up, Get(w.counters, x).down + down)])
    case CounterZeroed(x) => if x in w.counters then w.(counters := w.counters[x := ZERO]) else w
    case CounterForgotten(x) => w.(counters := w.counters - {x})
    case SyncTick(now) => w.(usage := Synced(w.usage, w.counters, now))
    case PeriodTick(users, now, offset) => w.(usage := Checked(w.usage, users, now, offset))
    case ResetAll(known, now) => w.(usage := FullyReset(w.counters, known, now))
  }

  ghost function WorldAt(run: seq<Event>, k: nat): World
    requires k <= |run|
  {
    if k == 0 then START else Step(WorldAt(run, k - 1), run[k - 1])
  }

  // ---- one user in one direction ----

  datatype Direction = Up | Down

  function In(p: Pair, d: Direction): int { match d case Up => p.up case Down => p.down }

  /** The accounting of one counter, next to what really happened: `carried` is the traffic since the last full reset;
      `settled` sums the last reading of every finished counter epoch, `seen` is the last reading of the present one;
      `base` is the reading at the last full reset; `restarted` says that the counter restarted since the last
      reading; `hidden` sums what invisible restarts cost. */
  datatype Meter = Meter(
    total: int, last: int, counter: int, carried: int, settled: int, seen: int, base: int, hidden: int, restarted: bool)

  function Traffics(m: Meter, n: nat): Meter { m.(counter := m.counter + n, carried := m.carried + n) }

  function Restarts(m: Meter): Meter { m.(counter := 0, settled := m.settled + m.seen, seen := 0, restarted := true) }

  /** A restart shows when the new counter reads lower than the old one did. */
  predicate Shows(m: Meter) { m.restarted ==> m.counter < m.last || m.last == 0 }

  function Reads(m: Meter): Meter {
    m.(total := m.total + Delta(m.last, m.counter), last := m.counter, seen := m.counter, restarted := false,
       hidden := m.hidden + if m.restarted && m.counter >= m.last then m.last else 0)
  }

  function Rebased(m: Meter): Meter { Meter(0, m.counter, m.counter, 0, 0, m.counter, m.counter, 0, false) }

  ghost function MeterStep(m: Meter, w: World, e: Event, x: string, d: Direction): Meter {
    match e
    case Traffic(y, up, down) => if y == x then Traffics(m, if d.Up? then up else down) else m
    case CounterZeroed(y) => if y == x && x in w.counters then Restarts(m) else m
    case CounterForgotten(y) => if y == x then Restarts(m) else m
    case SyncTick(_) => if x in w.counters then Reads(m) else m
    case PeriodTick(_, _, _) => m
    case ResetAll(_, _) => Rebased(m)
  }

  ghost function MeterAt(run: seq<Event>, k: nat, x: string, d: Direction): Meter
    requires k <= |run|
  {
    if k == 0 then Meter(0, 0, 0, 0, 0, 0, 0, 0, false)
    else MeterStep(MeterAt(run, k - 1, x, d), WorldAt(run, k - 1), run[k - 1], x, d)
  }

  ghost predicate Tracks(m: Meter, w: World, x: string, d: Direction) {
    && In(Get(w.usage.totals, x), d) == m.total && In(Get(w.usage.lastRaw, x), d) == m.last
    && In(Get(w.counters, x), d) == m.counter
  }

  ghost predicate Sound(m: Meter) {
    && 0 <= m.total && 0 <= m.last && 0 <= m.counter && 0 <= m.seen && 0 <= m.hidden
    && m.total + Delta(m.last, m.counter) <= m.carried
    && m.total + m.hidden + m.base == m.settled + m.seen
    && (if m.restarted then m.seen == 0 else m.seen == m.last <= m.counter)
  }

  lemma CreditedEffect(m: map<string, Pair>, lastRaw: map<string, Pair>, raw: map<string, Pair>, x: string)
    ensures Get(Credited(m, lastRaw, raw), x)
         == if x in raw then AddPair(Get(m, x), Deltas(Get(lastRaw, x), raw[x])) else Get(m, x)
  {
  }

  lemma MeterStepTracks(m: Meter, w: World, e: Event, x: string, d: Direction)
    requires Tracks(m, w, x, d) && Sound(m)
    ensures Tracks(MeterStep(m, w, e, x, d), Step(w, e), x, d)
  {
    match e
    case SyncTick(now) => CreditedEffect(w.usage.totals, w.usage.lastRaw, w.counters, x);
    case PeriodTick(users, now, offset) => CheckedAllEffect(w.usage, users, now, offset, "", Daily);
    case _ =>
  }

  lemma MeterStepSound(m: Meter, w: World, e: Event, x: string, d: Direction)
    requires Sound(m)
    ensures Sound(MeterStep(m, w, e, x, d))
  {
  }

  lemma {:induction false} MeterTracks(run: seq<Event>, k: nat, x: string, d: Direction)
    requires k <= |run|
    ensures Tracks(MeterAt(run, k, x, d), WorldAt(run, k), x, d) && Sound(MeterAt(run, k, x, d))
  {
    if k == 0 {
    } else {
      MeterTracks(run, k - 1, x, d);
      MeterStepTracks(MeterAt(run, k - 1, x, d), WorldAt(run, k - 1), run[k - 1], x, d);
      MeterStepSound(MeterAt(run, k - 1, x, d), WorldAt(run, k - 1), run[k - 1], x, d);
    }
  }

  /** The traffic of a user since the last full reset. */
  ghost function TrafficSince(run: seq<Event>, k: nat, x: string, d: Direction): nat
    requires k <= |run|
  {
    if k == 0 || run[k - 1].ResetAll? then 0
    else
      TrafficSince(run, k - 1, x, d) +
      if run[k - 1].Traffic? && run[k - 1].email == x then (if d.Up? then run[k - 1].up else run[k - 1].down) else 0
  }

  lemma {:induction false} MeterCarries(run: seq<Event>, k: nat, x: string, d: Direction)
    requires k <= |run|
    ensures MeterAt(run, k, x, d).carried == TrafficSince(run, k, x, d)
  {
    if k == 0 {
    } else {
      MeterCarries(run, k - 1, x, d);
    }
  }

  /** Totals never exceed the traffic carried since the last full reset. */
  lemma TotalsBounded(run: seq<Event>, k: nat, x: string, d: Direction)
    requires k <= |run|
    ensures 0 <= In(Get(WorldAt(run, k).usage.totals, x), d) <= TrafficSince(run, k, x, d)
  {
    MeterTracks(run, k, x, d);
    MeterCarries(run, k, x, d);
  }

  lemma MeterStepGrows(m: Meter, w: World, e: Event, x: string, d: Direction)
    requires Sound(m) && !e.ResetAll?
    ensures m.total <= MeterStep(m, w, e, x, d).total
  {
  }

  /** Totals fall only at a full reset, whatever the counters do. */
  lemma TotalsGrow(run: seq<Event>, k: nat, x: string, d: Direction)
    requires k < |run| && !run[k].ResetAll?
    ensures In(Get(WorldAt(run, k).usage.totals, x), d) <= In(Get(WorldAt(run, k + 1).usage.totals, x), d)
  {
    MeterTracks(run, k, x, d);
    MeterTracks(run, k + 1, x, d);
    MeterStepGrows(MeterAt(run, k, x, d), WorldAt(run, k), run[k], x, d);
    assert MeterAt(run, k + 1, x, d) == MeterStep(MeterAt(run, k, x, d), WorldAt(run, k), run[k], x, d);
  }

  /** Every counter restart before step `k` shows at the first reading after it. */
  ghost predicate RestartsShow(run: seq<Event>, k: nat, x: string, d: Direction)
    requires k <= |run|
  {
    forall i :: 0 <= i < k && run[i].SyncTick? && x in WorldAt(run, i).counters ==> Shows(MeterAt(run, i, x, d))
  }

  lemma {:induction false} HiddenIffUnseen(run: seq<Event>, k: nat, x: string, d: Direction)
    requires k <= |run| && forall i :: 0 <= i < k ==> !run[i].ResetAll?
    ensures MeterAt(run, k, x, d).hidden == 0 <==> RestartsShow(run, k, x, d)
    ensures MeterAt(run, k, x, d).base == 0
  {
    if k == 0 {
    } else {
      HiddenIffUnseen(run, k - 1, x, d);
      MeterTracks(run, k - 1, x, d);
      HiddenStep(MeterAt(run, k - 1, x, d), WorldAt(run, k - 1), run[k - 1], x, d);
    }
  }

  lemma HiddenStep(m: Meter, w: World, e: Event, x: string, d: Direction)
    requires Sound(m) && !e.ResetAll?
    ensures var m' := MeterStep(m, w, e, x, d);
            && m'.base == m.base
            && (m'.hidden == 0 <==> m.hidden == 0 && (e.SyncTick? && x in w.counters ==> Shows(m)))
  {
  }

  /** Without full resets, a total equals the sum of the last readings of all counter epochs exactly when every
      restart shows as a drop; otherwise it falls short. */
  lemma TotalIsSumOfEpochsIff(run: seq<Event>, k: nat, x: string, d: Direction)
    requires k <= |run| && forall i :: 0 <= i < k ==> !run[i].ResetAll?
    ensures var m := MeterAt(run, k, x, d);
            var total := In(Get(WorldAt(run, k).usage.totals, x), d);
            && total <= m.settled + m.seen
            && (total == m.settled + m.seen <==> RestartsShow(run, k, x, d))
  {
    MeterTracks(run, k, x, d);
    HiddenIffUnseen(run, k, x, d);
  }

  /** The bound depends on readings being applied in the order they were taken: of two readings of a counter that did
      not restart, applied in the wrong order, the older one is credited in full on top, unless it is zero or the
      same. */
  lemma OutOfOrderOvercounts(x: string, older: Pair, newer: Pair, now: int)
    requires 0 <= older.up <= newer.up && 0 <= older.down <= newer.down
    ensures var u := Synced(Synced(NOTHING, map[x := newer], now), map[x := older], now);
            var total := Get(u.totals, x);
            && newer.up <= total.up && newer.down <= total.down
            && (total.up > newer.up <==> 0 < older.up < newer.up)
            && (total.down > newer.down <==> 0 < older.down < newer.down)
  {
    SyncCredits(NOTHING, map[x := newer], now, x);
    SyncCredits(Synced(NOTHING, map[x := newer], now), map[x := older], now, x);
    OlderIsCredited(older, newer);
  }

  lemma SyncCredits(u: Usage, raw: map<string, Pair>, now: int, x: string)
    requires x in raw
    ensures var v := Synced(u, raw, now);
            && Get(v.totals, x) == AddPair(Get(u.totals, x), Deltas(Get(u.lastRaw, x), raw[x]))
            && Get(v.lastRaw, x) == raw[x]
  {
    CreditedEffect(u.totals, u.lastRaw, raw, x);
  }

  lemma OlderIsCredited(older: Pair, newer: Pair)
    requires 0 <= older.up <= newer.up && 0 <= older.down <= newer.down
    ensures var total := AddPair(AddPair(ZERO, Deltas(ZERO, newer)), Deltas(newer, older));
            && newer.up <= total.up && newer.down <= total.down
            && (total.up > newer.up <==> 0 < older.up < newer.up)
            && (total.down > newer.down <==> 0 < older.down < newer.down)
  {
  }

  /** After a full reset exactly the known users and those with a reading are there, at zero and with that reading as
      their baseline; no period has been seeded. */
  lemma FullResetIs(raw: map<string, Pair>, known: seq<string>, now: int, x: string, p: Period)
    ensures var v := FullyReset(raw, known, now);
            && (x in v.totals <==> x in raw || x in known) && (x in v.lastRaw <==> x in v.totals)
            && Get(v.totals, x) == ZERO && Get(v.lastRaw, x) == Get(raw, x)
            && Get(CounterOf(v, p), x) == ZERO && Deadline(v, x, p) == 0
  {
  }

  // ---- period counters ----

  ghost predicate RollsOver(w: World, e: Event, x: string, p: Period) {
    e.PeriodTick? && Listed(e.users, x) && 0 != Deadline(w.usage, x, p) <= e.now
  }

  /** The user's total at the last rollover of the period or full reset. */
  ghost function BaseAt(run: seq<Event>, k: nat, x: string, p: Period): Pair
    requires k <= |run|
  {
    if k == 0 then ZERO
    else if run[k - 1].ResetAll? then ZERO
    else if RollsOver(WorldAt(run, k - 1), run[k - 1], x, p) then Get(WorldAt(run, k - 1).usage.totals, x)
    else BaseAt(run, k - 1, x, p)
  }

  ghost predicate Between(lo: Pair, hi: Pair) { lo.up <= hi.up && lo.down <= hi.down }

  ghost predicate CounterIsGap(u: Usage, base: Pair, x: string, p: Period) {
    var (counter, total) := (Get(CounterOf(u, p), x), Get(u.totals, x));
    && counter == Pair(total.up - base.up, total.down - base.down)
    && Between(ZERO, base) && Between(base, total)
  }

  lemma SyncKeepsGap(u: Usage, raw: map<string, Pair>, now: int, base: Pair, x: string, p: Period)
    requires CounterIsGap(u, base, x, p)
    ensures CounterIsGap(Synced(u, raw, now), base, x, p)
  {
    CreditedEffect(u.totals, u.lastRaw, raw, x);
    CreditedEffect(CounterOf(u, p), u.lastRaw, raw, x);
  }

  lemma CheckKeepsGap(u: Usage, users: seq<PeriodUser>, now: int, offset: int, base: Pair, x: string, p: Period)
    requires CounterIsGap(u, base, x, p)
    ensures CounterIsGap(Checked(u, users, now, offset),
                         if Listed(users, x) && 0 != Deadline(u, x, p) <= now then Get(u.totals, x) else base, x, p)
  {
    CheckedAllEffect(u, users, now, offset, x, p);
  }

  /** Each period counter is the total now minus the total at its last rollover or full reset, so it lies between
      zero and the total. */
  lemma {:induction false} PeriodCounterIsGap(run: seq<Event>, k: nat, x: string, p: Period)
    requires k <= |run|
    ensures CounterIsGap(WorldAt(run, k).usage, BaseAt(run, k, x, p), x, p)
  {
    if k == 0 {
    } else {
      PeriodCounterIsGap(run, k - 1, x, p);
      var w, base := WorldAt(run, k - 1), BaseAt(run, k - 1, x, p);
      match run[k - 1]
      case SyncTick(now) => SyncKeepsGap(w.usage, w.counters, now, base, x, p);
      case PeriodTick(users, now, offset) => CheckKeepsGap(w.usage, users, now, offset, base, x, p);
      case _ =>
    }
  }
}
