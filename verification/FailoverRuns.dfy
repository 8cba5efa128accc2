/** Safety and liveness of whole failover runs. */
module FailoverRuns {
  import opened Stack
  import opened FailoverLoop
  import opened Samples

  // ---- open runs: the operator may replace the configuration between any two ticks ----

  datatype OpenTick = OpenTick(config: Config, checks: seq<Check>, now: int)

  ghost function StateAt(s: State, run: seq<OpenTick>, k: nat): State
    requires k <= |run|
  {
    if k == 0 then s
    else NextState(run[k - 1].config, StateAt(s, run, k - 1), run[k - 1].checks, run[k - 1].now)
  }

  ghost function ReasonAt(s: State, run: seq<OpenTick>, k: nat): Reason
    requires k < |run|
  {
    ReasonFor(run[k].config, StateAt(s, run, k), run[k].checks, run[k].now)
  }

  ghost predicate ChangesAt(s: State, run: seq<OpenTick>, k: nat)
    requires k < |run|
  {
    ReasonAt(s, run, k).ConfirmedChange?
  }

  ghost function DesiredAt(run: seq<OpenTick>, k: nat): Mode
    requires k < |run|
  {
    DesiredMode(run[k].config, run[k].checks)
  }

  ghost predicate Wants(run: seq<OpenTick>, k: nat, m: Mode)
    requires k < |run|
  {
    DesiredAt(run, k) == m != CurrentMode(run[k].config)
  }

  ghost predicate ClockNondecreasing(run: seq<OpenTick>) {
    forall i, j :: 0 <= i < j < |run| ==> run[i].now <= run[j].now
  }

  /** Two confirmed changes are a cooldown apart, unless in preferred mode the later one goes to an interface of the
      preferred tunnel. */
  lemma ChangesAreSpaced(s: State, run: seq<OpenTick>, i: nat, j: nat)
    requires ClockNondecreasing(run) && i < j < |run| && run[i].now > 0
    requires ChangesAt(s, run, i) && ChangesAt(s, run, j)
    ensures var (c, f) := (run[j].config, run[j].config.failover);
            || run[j].now - run[i].now >= f.cooldownSeconds
            || (f.mode == "preferred" && f.preferredTunnel != ""
                && exists t ::
                  t in c.tunnels && t.name == f.preferredTunnel && t.iface == DesiredAt(run, j).iface)
  {
    LastChangeNotBefore(s, run, i, j);
  }

  lemma {:induction false} LastChangeNotBefore(s: State, run: seq<OpenTick>, i: nat, k: nat)
    requires ClockNondecreasing(run) && i < k <= |run| && ChangesAt(s, run, i)
    ensures run[i].now <= StateAt(s, run, k).lastChange <= run[k - 1].now
  {
    if k == i + 1 {
    } else {
      LastChangeNotBefore(s, run, i, k - 1);
      LastChangeStep(run[k - 1].config, StateAt(s, run, k - 1), run[k - 1].checks, run[k - 1].now);
    }
  }

  lemma LastChangeStep(c: Config, s: State, checks: seq<Check>, now: int)
    ensures NextState(c, s, checks, now).lastChange == s.lastChange || NextState(c, s, checks, now).lastChange == now
  {
  }

  /** Auto or manual mode throughout, and the cooldown is never raised. */
  ghost predicate PlainRun(run: seq<OpenTick>) {
    && ClockNondecreasing(run)
    && (forall k :: 0 <= k < |run| ==> !EffectivePolicy(run[k].config.failover).Preferred?)
    && (forall i, j ::
        0 <= i < j < |run| ==> run[j].config.failover.cooldownSeconds <= run[i].config.failover.cooldownSeconds)
  }

  /** The tally counts exactly the latest ticks, all of which wanted the candidate. */
  ghost predicate TallyIsRecent(s: State, run: seq<OpenTick>, k: nat)
    requires k <= |run|
  {
    var now := StateAt(s, run, k);
    && 0 <= now.count <= k
    && (forall i :: k - now.count <= i < k ==> Wants(run, i, now.candidate))
    && (now.count > 0 ==> !Cooling(run[k - 1].config, now, run[k - 1].now))
  }

  lemma {:induction false} TallyStaysRecent(run: seq<OpenTick>, k: nat)
    requires PlainRun(run) && k <= |run|
    ensures TallyIsRecent(EMPTY, run, k)
  {
    if k == 0 {
    } else {
      TallyStaysRecent(run, k - 1);
      var before := StateAt(EMPTY, run, k - 1);
      if ReasonAt(EMPTY, run, k - 1).CoolingDown? && k > 1 {
        assert run[k - 2].now <= run[k - 1].now;
        assert before.count == 0;
      }
    }
  }

  /** A confirmed change was wanted by each of the last max(1, confirmations) ticks. */
  lemma ChangeWasConfirmed(run: seq<OpenTick>, j: nat)
    requires PlainRun(run) && j < |run| && ChangesAt(EMPTY, run, j)
    ensures run[j].config.failover.confirmations <= j + 1
    ensures forall i ::
            0 <= i <= j && (i == j || j < i + run[j].config.failover.confirmations) ==> Wants(run, i, DesiredAt(run, j))
  {
    TallyStaysRecent(run, j);
  }

  // ---- what the tally means in every mode ----

  /** The ticks before `k` that the cooldown did not block. */
  ghost function Unblocked(s: State, run: seq<OpenTick>, k: nat): seq<nat>
    requires k <= |run|
    ensures forall i :: i in Unblocked(s, run, k) ==> i < k
  {
    if k == 0 then []
    else Unblocked(s, run, k - 1) + (if ReasonAt(s, run, k - 1).CoolingDown? then [] else [k - 1])
  }

  ghost predicate LatestWant(run: seq<OpenTick>, ticks: seq<nat>, n: int, m: Mode) {
    && 0 <= n <= |ticks|
    && forall i :: |ticks| - n <= i < |ticks| ==> ticks[i] < |run| && Wants(run, ticks[i], m)
  }

  lemma {:induction false} TallyCountsUnblocked(run: seq<OpenTick>, k: nat)
    requires k <= |run|
    ensures var now := StateAt(EMPTY, run, k); LatestWant(run, Unblocked(EMPTY, run, k), now.count, now.candidate)
  {
    if k == 0 {
    } else {
      TallyCountsUnblocked(run, k - 1);
      LatestWantStep(run, k - 1);
    }
  }

  lemma LatestWantStep(run: seq<OpenTick>, k: nat)
    requires k < |run|
    requires var now := StateAt(EMPTY, run, k); LatestWant(run, Unblocked(EMPTY, run, k), now.count, now.candidate)
    ensures var now := StateAt(EMPTY, run, k + 1);
            LatestWant(run, Unblocked(EMPTY, run, k + 1), now.count, now.candidate)
  {
  }

  /** In every mode, under any clock and any configuration edits: a confirmed change was wanted by each of the
      last max(1, confirmations) ticks that the cooldown did not block. */
  lemma ChangeWasConfirmedByUnblocked(run: seq<OpenTick>, j: nat)
    requires j < |run| && ChangesAt(EMPTY, run, j)
    ensures LatestWant(run, Unblocked(EMPTY, run, j + 1), 1, DesiredAt(run, j))
    ensures run[j].config.failover.confirmations > 0 ==>
              LatestWant(run, Unblocked(EMPTY, run, j + 1), run[j].config.failover.confirmations, DesiredAt(run, j))
  {
    TallyCountsUnblocked(run, j);
  }

  // ---- exactly when a change happens ----

  /** The time of the last confirmed change before tick `k`; 0 if there was none. */
  ghost function LastChangeTime(run: seq<OpenTick>, k: nat): int
    requires k <= |run|
  {
    if k == 0 then 0 else if ChangesAt(EMPTY, run, k - 1) then run[k - 1].now else LastChangeTime(run, k - 1)
  }

  lemma {:induction false} LastChangeIs(run: seq<OpenTick>, k: nat)
    requires k <= |run|
    ensures StateAt(EMPTY, run, k).lastChange == LastChangeTime(run, k)
  {
    if k == 0 {
    } else {
      LastChangeIs(run, k - 1);
    }
  }

  /** Tick `k` asks for no change. */
  ghost predicate Content(run: seq<OpenTick>, k: nat)
    requires k < |run|
  {
    DesiredAt(run, k) == CurrentMode(run[k].config)
  }

  /** Tick `k` falls into the cooldown of the last change and does not, in preferred mode, ask for an interface of the
      preferred tunnel. */
  ghost predicate Blocked(run: seq<OpenTick>, k: nat)
    requires k < |run|
  {
    var (c, f, last) := (run[k].config, run[k].config.failover, LastChangeTime(run, k));
    && last > 0 && f.cooldownSeconds > 0 && run[k].now - last < f.cooldownSeconds
    && !(f.mode == "preferred" && f.preferredTunnel != ""
         && exists t :: t in c.tunnels && t.name == f.preferredTunnel && t.iface == DesiredAt(run, k).iface)
  }

  /** The ticks before `k` since the last change, other than those that asked for a change and were blocked. */
  ghost function Counted(run: seq<OpenTick>, k: nat): seq<nat>
    requires k <= |run|
    ensures forall i :: i in Counted(run, k) ==> i < k
  {
    if k == 0 || ChangesAt(EMPTY, run, k - 1) then []
    else if !Content(run, k - 1) && Blocked(run, k - 1) then Counted(run, k - 1)
    else Counted(run, k - 1) + [k - 1]
  }

  /** The last `n` of these ticks, and not one more, wanted `m` without a break. */
  ghost predicate Streak(run: seq<OpenTick>, ticks: seq<nat>, n: int, m: Mode) {
    && (forall i :: 0 <= i < |ticks| ==> ticks[i] < |run|) && LatestWant(run, ticks, n, m)
    && (n == 0 && ticks != [] ==> Content(run, ticks[|ticks| - 1]))
    && (0 < n < |ticks| ==> !Wants(run, ticks[|ticks| - n - 1], m))
  }

  lemma StreakGrows(run: seq<OpenTick>, ticks: seq<nat>, n: int, m: Mode, k: nat)
    requires k < |run| && Streak(run, ticks, n, m)
    ensures Wants(run, k, m) ==> Streak(run, ticks + [k], n + 1, m)
  {
  }

  lemma StreakRestarts(run: seq<OpenTick>, ticks: seq<nat>, n: int, m: Mode, k: nat, d: Mode)
    requires k < |run| && Streak(run, ticks, n, m) && d != m
    ensures Wants(run, k, d) ==> Streak(run, ticks + [k], 1, d)
  {
  }

  ghost predicate Tallied(run: seq<OpenTick>, k: nat)
    requires k <= |run|
  {
    var now := StateAt(EMPTY, run, k); Streak(run, Counted(run, k), now.count, now.candidate)
  }

  lemma {:induction false} TallyIsStreak(run: seq<OpenTick>, k: nat)
    requires k <= |run|
    ensures Tallied(run, k)
  {
    if k == 0 {
    } else {
      TallyIsStreak(run, k - 1);
      TallyStep(run, k - 1);
    }
  }

  lemma TallyStep(run: seq<OpenTick>, k: nat)
    requires k < |run| && Tallied(run, k)
    ensures Tallied(run, k + 1)
  {
    LastChangeIs(run, k);
    BlockedIff(run, k);
    if ReasonAt(EMPTY, run, k).AwaitingConfirmations? {
      WaitingKeepsStreak(run, k);
    } else {
      OtherKeepsStreak(run, k);
    }
  }

  lemma WaitingKeepsStreak(run: seq<OpenTick>, k: nat)
    requires k < |run| && ReasonAt(EMPTY, run, k).AwaitingConfirmations?
    requires !Content(run, k) && !Blocked(run, k) && Tallied(run, k)
    ensures Tallied(run, k + 1)
  {
    WaitingIs(run, k);
    StreakAfterWaiting(run, Counted(run, k), StateAt(EMPTY, run, k), StateAt(EMPTY, run, k + 1), k, DesiredAt(run, k));
  }

  lemma StreakAfterWaiting(run: seq<OpenTick>, ticks: seq<nat>, now: State, next: State, k: nat, d: Mode)
    requires k < |run| && Streak(run, ticks, now.count, now.candidate) && Wants(run, k, d)
    requires next.candidate == d && next.count == if now.candidate == d then now.count + 1 else 1
    ensures Streak(run, ticks + [k], next.count, next.candidate)
  {
    if now.candidate == d {
      StreakGrows(run, ticks, now.count, d, k);
    } else {
      StreakRestarts(run, ticks, now.count, now.candidate, k, d);
    }
  }

  lemma WaitingIs(run: seq<OpenTick>, k: nat)
    requires k < |run| && ReasonAt(EMPTY, run, k).AwaitingConfirmations? && !Content(run, k) && !Blocked(run, k)
    ensures var (now, next, d) := (StateAt(EMPTY, run, k), StateAt(EMPTY, run, k + 1), DesiredAt(run, k));
            && next.candidate == d && next.count == (if now.candidate == d then now.count + 1 else 1)
            && Counted(run, k + 1) == Counted(run, k) + [k]
  {
  }

  lemma OtherKeepsStreak(run: seq<OpenTick>, k: nat)
    requires k < |run| && !ReasonAt(EMPTY, run, k).AwaitingConfirmations? && Tallied(run, k)
    requires ReasonAt(EMPTY, run, k).CoolingDown? <==> !Content(run, k) && Blocked(run, k)
    ensures Tallied(run, k + 1)
  {
  }

  lemma BlockedIff(run: seq<OpenTick>, k: nat)
    requires k < |run| && StateAt(EMPTY, run, k).lastChange == LastChangeTime(run, k)
    ensures ReasonAt(EMPTY, run, k).CoolingDown? <==> !Content(run, k) && Blocked(run, k)
    ensures ReasonAt(EMPTY, run, k).Settled? <==> Content(run, k)
  {
  }

  lemma NotLonger(run: seq<OpenTick>, ticks: seq<nat>, n: int, m: Mode, k: nat, q: int)
    requires k < |run| && Streak(run, ticks, n, m) && q > n + 1 && q > 1
    ensures !LatestWant(run, ticks + [k], q, m)
  {
    var all := ticks + [k];
    if 0 < n < |ticks| {
      assert all[|ticks| - n - 1] == ticks[|ticks| - n - 1];
    } else if n == 0 && ticks != [] {
      assert all[|ticks| - 1] == ticks[|ticks| - 1];
    }
  }

  lemma NotAnother(run: seq<OpenTick>, ticks: seq<nat>, n: int, m: Mode, k: nat, d: Mode, q: int)
    requires k < |run| && Streak(run, ticks, n, m) && q > 1 && d != m
    ensures !LatestWant(run, ticks + [k], q, d)
  {
    var all := ticks + [k];
    if ticks != [] { assert all[|ticks| - 1] == ticks[|ticks| - 1]; }
  }

  lemma LongerStreak(run: seq<OpenTick>, ticks: seq<nat>, n: int, m: Mode, k: nat, d: Mode, q: int)
    requires k < |run| && Streak(run, ticks, n, m) && Wants(run, k, d) && q > 1
    ensures LatestWant(run, ticks + [k], q, d) <==> d == m && q <= n + 1
  {
    if d != m { NotAnother(run, ticks, n, m, k, d, q); }
    else if q > n + 1 { NotLonger(run, ticks, n, m, k, q); }
    else { StreakGrows(run, ticks, n, m, k); }
  }

  /** In every mode, under any clock and any configuration edits: a tick changes the mode if and only if it wants
      another one, is not blocked, and is the last of max(1, confirmations) such ticks since the last change that wanted
      that mode without a break. */
  lemma ChangeIff(run: seq<OpenTick>, j: nat)
    requires j < |run|
    ensures var (n, d) := (run[j].config.failover.confirmations, DesiredAt(run, j));
            ChangesAt(EMPTY, run, j)
            <==> Wants(run, j, d) && !Blocked(run, j) && (n > 1 ==> LatestWant(run, Counted(run, j) + [j], n, d))
  {
    TallyIsStreak(run, j);
    LastChangeIs(run, j);
    BlockedIff(run, j);
    var now, n, d := StateAt(EMPTY, run, j), run[j].config.failover.confirmations, DesiredAt(run, j);
    if n > 1 && Wants(run, j, d) { LongerStreak(run, Counted(run, j), now.count, now.candidate, j, d, n); }
  }

  // ---- closed runs: only the loop itself edits the configuration ----

  ghost function WorldAt(w: World, ticks: seq<Tick>, k: nat): World
    requires k <= |ticks|
  {
    if k == 0 then w else Step(WorldAt(w, ticks, k - 1), ticks[k - 1])
  }

  ghost function ChangeCount(w: World, ticks: seq<Tick>, k: nat): nat
    requires k <= |ticks|
  {
    if k == 0 then 0
    else ChangeCount(w, ticks, k - 1) + if Changes(WorldAt(w, ticks, k - 1), ticks[k - 1]) then 1 else 0
  }

  ghost function CooldownTicks(c: Config): nat {
    if c.failover.cooldownSeconds <= 0 then 0 else c.failover.cooldownSeconds
  }

  /** A change that could not be saved is not made: as long as no save succeeds, a run of any length leaves the
      configuration alone. */
  lemma {:induction false} UnsavedChangesNothing(w: World, ticks: seq<Tick>, k: nat)
    requires k <= |ticks| && forall i :: 0 <= i < k ==> !ticks[i].saved
    ensures WorldAt(w, ticks, k).config == w.config
  {
    if k == 0 {
    } else {
      UnsavedChangesNothing(w, ticks, k - 1);
    }
  }

  /** Constant health, successful saves, and a clock that starts no earlier than the last change and gains
      at least a second per tick. */
  ghost predicate Steady(w: World, ticks: seq<Tick>, checks: seq<Check>) {
    && (forall k :: 0 <= k < |ticks| ==> ticks[k].checks == checks && ticks[k].saved)
    && (forall k :: 0 <= k < |ticks| ==> ticks[k].now >= w.state.lastChange + k)
    && w.state.count >= 0
  }

  ghost predicate Waiting(w: World, now: World, d: Mode, k: nat) {
    && now.config == w.config && CurrentMode(w.config) != d
    && now.state.lastChange == w.state.lastChange && now.state.count >= 0
    && (k > CooldownTicks(w.config) ==>
          now.state.candidate == d && k - CooldownTicks(w.config) <= now.state.count < Confirmations(w.config))
  }

  ghost predicate Arrived(w: World, now: World, d: Mode) {
    now.config == if CurrentMode(w.config) == d then w.config else Applied(w.config, d)
  }

  lemma {:induction false} SteadyProgress(w: World, ticks: seq<Tick>, checks: seq<Check>, k: nat)
    requires Steady(w, ticks, checks) && k <= |ticks| && Expressible(w.config, DesiredMode(w.config, checks))
    ensures var d := DesiredMode(w.config, checks);
            var now := WorldAt(w, ticks, k);
            var changes := ChangeCount(w, ticks, k);
            || (Waiting(w, now, d, k) && changes == 0)
            || (Arrived(w, now, d) && changes == if CurrentMode(w.config) == d then 0 else 1)
  {
    if k == 0 {
    } else {
      SteadyProgress(w, ticks, checks, k - 1);
      var before := WorldAt(w, ticks, k - 1);
      if Waiting(w, before, DesiredMode(w.config, checks), k - 1) {
        WaitingStep(w, before, ticks[k - 1], checks, k - 1);
      } else {
        ArrivedStep(w, before, ticks[k - 1], checks);
      }
    }
  }

  lemma WaitingStep(w: World, before: World, tick: Tick, checks: seq<Check>, k: nat)
    requires Waiting(w, before, DesiredMode(w.config, checks), k)
    requires tick.checks == checks && tick.saved && tick.now >= w.state.lastChange + k
    ensures var d := DesiredMode(w.config, checks);
            if Changes(before, tick) then Arrived(w, Step(before, tick), d)
            else Waiting(w, Step(before, tick), d, k + 1)
  {
  }

  lemma ArrivedStep(w: World, before: World, tick: Tick, checks: seq<Check>)
    requires Arrived(w, before, DesiredMode(w.config, checks)) && Expressible(w.config, DesiredMode(w.config, checks))
    requires tick.checks == checks
    ensures Arrived(w, Step(before, tick), DesiredMode(w.config, checks)) && !Changes(before, tick)
  {
    DesiredIsFixpoint(w.config, checks);
  }

  /** `k` ticks cover the cooldown, if any, and then max(1, confirmations) more. */
  ghost predicate LongEnough(f: Failover, k: int) {
    && k >= 1 && k >= f.confirmations
    && k >= f.cooldownSeconds + 1 && k >= f.cooldownSeconds + f.confirmations
  }

  /** With an expressible target, a steady run changes the mode at most once, is in the desired mode within
      cooldown + max(1, confirmations) ticks, and stays there. */
  lemma SteadyRunSettles(w: World, ticks: seq<Tick>, checks: seq<Check>, k: nat)
    requires Steady(w, ticks, checks) && Expressible(w.config, DesiredMode(w.config, checks))
    requires LongEnough(w.config.failover, k) && k <= |ticks|
    ensures var d := DesiredMode(w.config, checks);
            && CurrentMode(WorldAt(w, ticks, k).config) == d == DesiredMode(WorldAt(w, ticks, k).config, checks)
            && ChangeCount(w, ticks, k) == if CurrentMode(w.config) == d then 0 else 1
  {
    SteadyProgress(w, ticks, checks, k);
    DesiredIsFixpoint(w.config, checks);
  }

  /** With nothing healthy and an empty fallback tag, no run of any length reaches the desired mode. */
  lemma {:induction false} InexpressibleIsNeverReached(w: World, ticks: seq<Tick>, checks: seq<Check>, k: nat)
    requires k <= |ticks| && NowhereToGo(w.config, checks)
    ensures WorldAt(w, ticks, k).config.proxy.tag == w.config.proxy.tag
    ensures CurrentMode(WorldAt(w, ticks, k).config) != DesiredMode(w.config, checks)
  {
    DesiredTagIs(w.config, checks);
    if k == 0 {
    } else {
      InexpressibleIsNeverReached(w, ticks, checks, k - 1);
      StepKeepsProxyTag(WorldAt(w, ticks, k - 1), ticks[k - 1]);
    }
  }

  lemma StepKeepsProxyTag(w: World, tick: Tick)
    ensures Step(w, tick).config.proxy.tag == w.config.proxy.tag
  {
  }

  /** A valid configuration that every run of any length leaves where it is: one tunnel, unhealthy, and no fallback
      tag. */
  lemma ValidConfigCanBeStuck(ticks: seq<Tick>, state: State, k: nat)
    requires k <= |ticks|
    ensures var c := Variant([], [], 1080, NO_SPOOF, "", []);
            var checks := [Check("tun0", false)];
            && Valid(c) && NowhereToGo(c, checks)
            && CurrentMode(WorldAt(World(c, state), ticks, k).config) != DesiredMode(c, checks)
  {
    VariantIsValid([], [], 1080, NO_SPOOF, "", []);
    InexpressibleIsNeverReached(World(Variant([], [], 1080, NO_SPOOF, "", []), state), ticks, [Check("tun0", false)],
                                k);
  }

  /** The exact condition under which a long enough steady run ends in the mode it desires. */
  lemma SteadyRunSettlesIff(w: World, ticks: seq<Tick>, checks: seq<Check>)
    requires Steady(w, ticks, checks) && LongEnough(w.config.failover, |ticks|)
    ensures CurrentMode(WorldAt(w, ticks, |ticks|).config) == DesiredMode(w.config, checks)
            <==> !NowhereToGo(w.config, checks)
  {
    DesiredExpressible(w.config, checks);
    if !NowhereToGo(w.config, checks) {
      SteadyRunSettles(w, ticks, checks, |ticks|);
    } else {
      InexpressibleIsNeverReached(w, ticks, checks, |ticks|);
    }
  }

  ghost predicate PreferredHealthy(c: Config, checks: seq<Check>) {
    && EffectivePolicy(c.failover).Preferred? && c.failover.preferredTunnel != ""
    && TunnelHealthy(c, checks, c.failover.preferredTunnel).0
  }

  ghost function PreferredMode(c: Config): Mode {
    Mode(c.proxy.tag, TunnelHealthy(c, [], c.failover.preferredTunnel).1)
  }

  /** After `k` ticks with a healthy preferred tunnel: on it, or `k` confirmations towards it. */
  ghost predicate Heading(w: World, now: World, k: nat) {
    && now.config.(routing := w.config.routing, proxy := w.config.proxy) == w.config
    && now.config.proxy.tag == w.config.proxy.tag
    && (CurrentMode(now.config) == PreferredMode(w.config)
        || (k == 0 && now.state.count >= 0)
        || (now.state.candidate == PreferredMode(w.config) && k <= now.state.count < Confirmations(w.config)))
  }

  lemma HeadingStep(w: World, before: World, tick: Tick, k: nat)
    requires Heading(w, before, k) && tick.saved && PreferredHealthy(w.config, tick.checks)
    ensures Heading(w, Step(before, tick), k + 1)
  {
    assert DesiredMode(before.config, tick.checks) == PreferredMode(w.config);
    assert SkipsCooldown(before.config, PreferredMode(w.config));
  }

  lemma {:induction false} HeadingAt(w: World, ticks: seq<Tick>, k: nat)
    requires k <= |ticks| && w.state.count >= 0
    requires forall i :: 0 <= i < |ticks| ==> ticks[i].saved && PreferredHealthy(w.config, ticks[i].checks)
    ensures Heading(w, WorldAt(w, ticks, k), k)
  {
    if k == 0 {
    } else {
      HeadingAt(w, ticks, k - 1);
      HeadingStep(w, WorldAt(w, ticks, k - 1), ticks[k - 1], k - 1);
    }
  }

  ghost predicate TunnelHolds(c: Config, checks: seq<Check>, t: nat) {
    exists n: nat :: PreferredHolds(c, checks, t, n)
  }

  lemma HoldingIsHealthy(c: Config, checks: seq<Check>, t: nat, n: nat)
    requires PreferredHolds(c, checks, t, n)
    ensures PreferredHealthy(c, checks) && PreferredMode(c) == Mode(c.proxy.tag, c.tunnels[t].iface)
  {
    FirstNamed(c.tunnels, c.failover.preferredTunnel, t);
    HealthOfIs(checks, c.tunnels[t].iface);
  }

  /** Whatever the cooldown and the clock: if the preferred tunnel `t` holds for max(1, confirmations) ticks and saves
      succeed, the run ends on it and stays while it holds. */
  lemma PreferredIsReached(w: World, ticks: seq<Tick>, t: nat, k: nat)
    requires k <= |ticks| && w.state.count >= 0 && k >= 1 && k >= w.config.failover.confirmations
    requires forall i :: 0 <= i < |ticks| ==> ticks[i].saved && TunnelHolds(w.config, ticks[i].checks, t)
    ensures t < |w.config.tunnels|
    ensures CurrentMode(WorldAt(w, ticks, k).config) == Mode(w.config.proxy.tag, w.config.tunnels[t].iface)
  {
    forall i | 0 <= i < |ticks|
      ensures PreferredHealthy(w.config, ticks[i].checks) && t < |w.config.tunnels|
      ensures PreferredMode(w.config) == Mode(w.config.proxy.tag, w.config.tunnels[t].iface)
    {
      var n: nat :| PreferredHolds(w.config, ticks[i].checks, t, n);
      HoldingIsHealthy(w.config, ticks[i].checks, t, n);
    }
    HeadingAt(w, ticks, k);
    assert ticks[0].saved;
  }

  ghost predicate InterfaceHolds(c: Config, checks: seq<Check>) { exists n: nat :: ManualHolds(c, checks, n) }

  /** In manual mode a run whose current interface holds never changes mode, whatever else happens. */
  lemma {:induction false} ManualSticks(w: World, ticks: seq<Tick>, k: nat)
    requires k <= |ticks|
    requires forall i :: 0 <= i < |ticks| ==> InterfaceHolds(w.config, ticks[i].checks)
    ensures WorldAt(w, ticks, k).config == w.config && ChangeCount(w, ticks, k) == 0
  {
    if k == 0 {
    } else {
      ManualSticks(w, ticks, k - 1);
      var n: nat :| ManualHolds(w.config, ticks[k - 1].checks, n);
      ManualIsKept(w.config, ticks[k - 1].checks, n);
    }
  }
}
