/** One tick of the failover loop: health, desired mode, debounced decision, and its effect on the configuration. */
module FailoverLoop {
  import opened Text
  import opened Stack

  datatype Mode = Mode(tag: string, iface: string)

  datatype Check = Check(iface: string, healthy: bool)

  datatype State = State(candidate: Mode, count: int, lastChange: int)

  const NO_MODE := Mode("", "")
  const EMPTY := State(NO_MODE, 0, 0)

  datatype Reason = Settled | CoolingDown | AwaitingConfirmations | ConfirmedChange

  datatype Decision = Decision(
    current: Mode, desired: Mode, effective: Mode, pending: bool,
    confirmationCount: int, cooldownRemaining: int, reason: Reason)

  function CurrentMode(c: Config): Mode {
    var tag := OrDefault(c.routing.aiOutboundTag, c.proxy.tag);
    Mode(tag, if tag == c.proxy.tag then c.proxy.iface else "")
  }

  /** The verdict of the first check on an interface. */
  function HealthOf(checks: seq<Check>, iface: string): Option<bool> {
    if checks == [] then None
    else if checks[0].iface == iface then Some(checks[0].healthy)
    else HealthOf(checks[1..], iface)
  }

  /** The first tunnel of a given name. */
  function TunnelNamed(tunnels: seq<Tunnel>, name: string): (t: Option<Tunnel>)
    ensures t.Some? ==> t.value in tunnels && t.value.name == name
    ensures t.None? ==> forall u :: u in tunnels ==> u.name != name
  {
    if tunnels == [] then None
    else if tunnels[0].name == name then Some(tunnels[0])
    else TunnelNamed(tunnels[1..], name)
  }

  /** (healthy, interface, found) for the tunnel of a given name. */
  function TunnelHealthy(c: Config, checks: seq<Check>, name: string): (bool, string, bool) {
    match TunnelNamed(c.tunnels, name)
    case Some(t) => (HealthOf(checks, t.iface) == Some(true), t.iface, true)
    case None => (false, "", false)
  }

  predicate InterfaceHealthy(checks: seq<Check>, iface: string) {
    iface != "" && HealthOf(checks, iface) == Some(true)
  }

  predicate SomeHealthyCheck(checks: seq<Check>, iface: string) {
    exists c :: c in checks && c.iface == iface && c.healthy
  }

  /** The mode of the first tunnel, in priority order, with a healthy check; the fallback mode if there is none. */
  function FirstHealthyMode(c: Config, tunnels: seq<Tunnel>, checks: seq<Check>): (m: Mode)
    ensures (forall t :: t in tunnels ==> !SomeHealthyCheck(checks, t.iface))
            ==> m == Mode(c.failover.fallbackOutboundTag, "")
    ensures (exists t :: t in tunnels && SomeHealthyCheck(checks, t.iface)) ==>
              m.tag == c.proxy.tag && SomeHealthyCheck(checks, m.iface)
  {
    if tunnels == [] then Mode(c.failover.fallbackOutboundTag, "")
    else if SomeHealthyCheck(checks, tunnels[0].iface) then Mode(c.proxy.tag, tunnels[0].iface)
    else FirstHealthyMode(c, tunnels[1..], checks)
  }

  function DesiredMode(c: Config, checks: seq<Check>): Mode {
    var first := FirstHealthyMode(c, c.tunnels, checks);
    match EffectivePolicy(c.failover)
    case Preferred =>
      var (healthy, iface, found) := TunnelHealthy(c, checks, c.failover.preferredTunnel);
      if c.failover.preferredTunnel != "" && found && healthy then Mode(c.proxy.tag, iface) else first
    case Manual =>
      var current := CurrentMode(c);
      if current.iface != "" && InterfaceHealthy(checks, current.iface) then current else first
    case Auto => first
  }

  /** Returning to the preferred tunnel ignores the cooldown. */
  ghost predicate SkipsCooldown(c: Config, desired: Mode) {
    && EffectivePolicy(c.failover).Preferred? && c.failover.preferredTunnel != ""
    && exists t :: t in c.tunnels && t.name == c.failover.preferredTunnel && t.iface == desired.iface
  }

  ghost predicate Cooling(c: Config, s: State, now: int) {
    c.failover.cooldownSeconds > 0 && s.lastChange > 0 && now - s.lastChange < c.failover.cooldownSeconds
  }

  function Confirmations(c: Config): int { if c.failover.confirmations <= 0 then 1 else c.failover.confirmations }

  /** How many ticks in a row, this one included, have asked for `desired`. */
  function Tally(s: State, desired: Mode): int { if s.candidate == desired then s.count + 1 else 1 }

  ghost function ReasonFor(c: Config, s: State, checks: seq<Check>, now: int): Reason {
    var desired := DesiredMode(c, checks);
    if desired == CurrentMode(c) then Settled
    else if Cooling(c, s, now) && !SkipsCooldown(c, desired) then CoolingDown
    else if Tally(s, desired) < Confirmations(c) then AwaitingConfirmations
    else ConfirmedChange
  }

  ghost function NextState(c: Config, s: State, checks: seq<Check>, now: int): State {
    match ReasonFor(c, s, checks, now)
    case Settled => s.(candidate := NO_MODE, count := 0)
    case CoolingDown => s
    case AwaitingConfirmations => s.(candidate := DesiredMode(c, checks), count := Tally(s, DesiredMode(c, checks)))
    case ConfirmedChange => State(NO_MODE, 0, now)
  }

  ghost function DecisionFor(c: Config, s: State, checks: seq<Check>, now: int): Decision {
    var (current, desired, reason) := (CurrentMode(c), DesiredMode(c, checks), ReasonFor(c, s, checks, now));
    Decision(
      current, desired,
      if reason.ConfirmedChange? then desired else current,
      reason.CoolingDown? || reason.AwaitingConfirmations?,
      if reason.AwaitingConfirmations? || reason.ConfirmedChange? then Tally(s, desired) else 0,
      if reason.CoolingDown? then c.failover.cooldownSeconds - (now - s.lastChange) else 0,
      reason)
  }

  /** Decide, field by field as the loop does it. */
  method Decide(c: Config, s: State, checks: seq<Check>, now: int) returns (d: Decision, state: State)
    ensures d == DecisionFor(c, s, checks, now)
    ensures state == NextState(c, s, checks, now)
    ensures d.reason.CoolingDown? ==>
              0 < d.cooldownRemaining && now + d.cooldownRemaining == s.lastChange + c.failover.cooldownSeconds
  {
    var current, desired := CurrentMode(c), DesiredMode(c, checks);
    state := s;
    d := Decision(current, desired, current, false, 0, 0, Settled);
    if desired == current {
      state := state.(candidate := NO_MODE, count := 0);
      return;
    }
    var skipCooldown := false;
    if EffectivePolicy(c.failover).Preferred? && c.failover.preferredTunnel != "" {
      for i := 0 to |c.tunnels|
        invariant !skipCooldown
        invariant forall j ::
                0 <= j < i ==> !(c.tunnels[j].name == c.failover.preferredTunnel && c.tunnels[j].iface == desired.iface)
      {
        if c.tunnels[i].name == c.failover.preferredTunnel && c.tunnels[i].iface == desired.iface {
          skipCooldown := true;
          break;
        }
      }
    }
    assert skipCooldown == SkipsCooldown(c, desired);
    if !skipCooldown && c.failover.cooldownSeconds > 0 && s.lastChange > 0
      && now - s.lastChange < c.failover.cooldownSeconds {
      d := d.(pending := true, cooldownRemaining := c.failover.cooldownSeconds - (now - s.lastChange),
              reason := CoolingDown);
      return;
    }
    if state.candidate == desired {
      state := state.(count := state.count + 1);
    } else {
      state := state.(candidate := desired, count := 1);
    }
    d := d.(confirmationCount := state.count);
    var confirmations := c.failover.confirmations;
    if confirmations <= 0 { confirmations := 1; }
    if state.count < confirmations {
      d := d.(pending := true, reason := AwaitingConfirmations);
      return;
    }
    state := State(NO_MODE, 0, now);
    d := d.(effective := desired, reason := ConfirmedChange);
  }

  function Applied(c: Config, m: Mode): Config {
    if m.tag == c.proxy.tag
    then c.(routing := c.routing.(aiOutboundTag := ""), proxy := c.proxy.(iface := m.iface))
    else c.(routing := c.routing.(aiOutboundTag := m.tag))
  }

  /** The configuration expresses `m` after ApplyMode. */
  predicate Expressible(c: Config, m: Mode) {
    m.tag == c.proxy.tag || (m.tag != "" && m.iface == "")
  }

  /** Reading the mode back gives the mode applied exactly when the mode is expressible. */
  lemma ApplyRoundTrip(c: Config, m: Mode)
    ensures CurrentMode(Applied(c, m)) == m <==> Expressible(c, m)
  {
  }

  /** No tunnel has a healthy check and, in manual mode, neither has the current interface. */
  ghost predicate NothingHealthy(c: Config, checks: seq<Check>) {
    && (forall t :: t in c.tunnels ==> !SomeHealthyCheck(checks, t.iface))
    && !(EffectivePolicy(c.failover).Manual? && InterfaceHealthy(checks, CurrentMode(c).iface))
  }

  lemma {:induction false} FirstVerdictIsACheck(checks: seq<Check>, iface: string)
    requires HealthOf(checks, iface) == Some(true)
    ensures SomeHealthyCheck(checks, iface)
  {
    if checks[0].iface == iface {
      assert checks[0] in checks;
    } else {
      FirstVerdictIsACheck(checks[1..], iface);
      var c :| c in checks[1..] && c.iface == iface && c.healthy;
      assert c in checks;
    }
  }

  /** The loop wants the proxy outbound while anything is healthy, and the fallback tag otherwise. */
  lemma DesiredTagIs(c: Config, checks: seq<Check>)
    ensures DesiredMode(c, checks).tag ==
            if NothingHealthy(c, checks) then c.failover.fallbackOutboundTag else c.proxy.tag
    ensures NothingHealthy(c, checks) ==> DesiredMode(c, checks).iface == ""
  {
    if EffectivePolicy(c.failover).Preferred? && TunnelHealthy(c, checks, c.failover.preferredTunnel).0 {
      FirstVerdictIsACheck(checks, TunnelHealthy(c, checks, c.failover.preferredTunnel).1);
    }
  }

  // ---- the desired mode, in terms of the configuration and the checks alone ----

  /** Check `k` is the first on an interface, and healthy. */
  ghost predicate FirstCheckHealthy(checks: seq<Check>, iface: string, k: nat) {
    && k < |checks| && checks[k].iface == iface && checks[k].healthy
    && forall j :: 0 <= j < k ==> checks[j].iface != iface
  }

  /** Tunnel `i` has a healthy check, on whatever place of the list. */
  ghost predicate TunnelUp(c: Config, checks: seq<Check>, i: nat) {
    i < |c.tunnels| && exists k :: 0 <= k < |checks| && checks[k].iface == c.tunnels[i].iface && checks[k].healthy
  }

  /** In preferred mode, tunnel `t` is the first of the preferred name and its first check is healthy. */
  ghost predicate PreferredHolds(c: Config, checks: seq<Check>, t: nat, k: nat) {
    && c.failover.mode == "preferred" && c.failover.preferredTunnel != ""
    && t < |c.tunnels| && c.tunnels[t].name == c.failover.preferredTunnel
    && (forall j :: 0 <= j < t ==> c.tunnels[j].name != c.failover.preferredTunnel)
    && FirstCheckHealthy(checks, c.tunnels[t].iface, k)
  }

  /** In manual mode, the traffic goes through an interface whose first check is healthy. */
  ghost predicate ManualHolds(c: Config, checks: seq<Check>, k: nat) {
    && c.failover.mode == "manual" && (c.routing.aiOutboundTag == "" || c.routing.aiOutboundTag == c.proxy.tag)
    && c.proxy.iface != "" && FirstCheckHealthy(checks, c.proxy.iface, k)
  }

  lemma {:induction false} HealthOfIs(checks: seq<Check>, iface: string)
    ensures HealthOf(checks, iface) == Some(true) <==> exists k: nat :: FirstCheckHealthy(checks, iface, k)
  {
    if checks == [] {
    } else if checks[0].iface == iface {
      if checks[0].healthy { assert FirstCheckHealthy(checks, iface, 0); }
    } else {
      HealthOfIs(checks[1..], iface);
      if HealthOf(checks, iface) == Some(true) {
        var k: nat :| FirstCheckHealthy(checks[1..], iface, k);
        assert FirstCheckHealthy(checks, iface, k + 1);
      }
      if k: nat :| FirstCheckHealthy(checks, iface, k) {
        assert FirstCheckHealthy(checks[1..], iface, k - 1);
      }
    }
  }

  ghost predicate IsFirstNamed(tunnels: seq<Tunnel>, name: string, t: nat) {
    t < |tunnels| && tunnels[t].name == name && forall j :: 0 <= j < t ==> tunnels[j].name != name
  }

  lemma {:induction false} FirstNamed(tunnels: seq<Tunnel>, name: string, t: nat)
    requires IsFirstNamed(tunnels, name, t)
    ensures TunnelNamed(tunnels, name) == Some(tunnels[t])
  {
    if t == 0 {
    } else {
      FirstNamed(tunnels[1..], name, t - 1);
    }
  }

  lemma {:induction false} SomeFirstNamed(tunnels: seq<Tunnel>, name: string)
    requires TunnelNamed(tunnels, name).Some?
    ensures exists t: nat :: IsFirstNamed(tunnels, name, t)
  {
    if tunnels[0].name == name {
      assert IsFirstNamed(tunnels, name, 0);
    } else {
      SomeFirstNamed(tunnels[1..], name);
      var t: nat :| IsFirstNamed(tunnels[1..], name, t);
      assert IsFirstNamed(tunnels, name, t + 1);
    }
  }

  lemma {:induction false} FirstHealthyIs(c: Config, tunnels: seq<Tunnel>, checks: seq<Check>, i: nat)
    requires i < |tunnels| && SomeHealthyCheck(checks, tunnels[i].iface)
    requires forall j :: 0 <= j < i ==> !SomeHealthyCheck(checks, tunnels[j].iface)
    ensures FirstHealthyMode(c, tunnels, checks) == Mode(c.proxy.tag, tunnels[i].iface)
  {
    if i == 0 {
    } else {
      FirstHealthyIs(c, tunnels[1..], checks, i - 1);
    }
  }

  lemma UpIffHealthyCheck(c: Config, checks: seq<Check>, i: nat)
    requires i < |c.tunnels|
    ensures TunnelUp(c, checks, i) <==> SomeHealthyCheck(checks, c.tunnels[i].iface)
  {
  }

  /** A preferred tunnel that holds is desired. */
  lemma PreferredIsDesired(c: Config, checks: seq<Check>, t: nat, k: nat)
    requires PreferredHolds(c, checks, t, k)
    ensures DesiredMode(c, checks) == Mode(c.proxy.tag, c.tunnels[t].iface)
  {
    FirstNamed(c.tunnels, c.failover.preferredTunnel, t);
    HealthOfIs(checks, c.tunnels[t].iface);
  }

  /** In manual mode an interface that holds is kept, whichever tunnel comes first. */
  lemma ManualIsKept(c: Config, checks: seq<Check>, k: nat)
    requires ManualHolds(c, checks, k)
    ensures DesiredMode(c, checks) == Mode(c.proxy.tag, c.proxy.iface)
  {
    HealthOfIs(checks, c.proxy.iface);
  }

  /** Neither the preferred tunnel nor, in manual mode, the current interface holds. */
  ghost predicate NothingHolds(c: Config, checks: seq<Check>) {
    && (forall t: nat, k: nat :: !PreferredHolds(c, checks, t, k))
    && (forall k: nat :: !ManualHolds(c, checks, k))
  }

  lemma NothingHoldsMeansFirst(c: Config, checks: seq<Check>)
    requires NothingHolds(c, checks)
    ensures DesiredMode(c, checks) == FirstHealthyMode(c, c.tunnels, checks)
  {
    if c.failover.mode == "manual" {
      HealthOfIs(checks, c.proxy.iface);
      if k: nat :| FirstCheckHealthy(checks, c.proxy.iface, k) { assert !ManualHolds(c, checks, k); }
    } else if c.failover.mode == "preferred" && TunnelNamed(c.tunnels, c.failover.preferredTunnel).Some? {
      SomeFirstNamed(c.tunnels, c.failover.preferredTunnel);
      var t: nat :| IsFirstNamed(c.tunnels, c.failover.preferredTunnel, t);
      FirstNamed(c.tunnels, c.failover.preferredTunnel, t);
      HealthOfIs(checks, c.tunnels[t].iface);
      if k: nat :| FirstCheckHealthy(checks, c.tunnels[t].iface, k) { assert !PreferredHolds(c, checks, t, k); }
    }
  }

  /** Otherwise, and always in auto mode, the first tunnel in priority order that has a healthy check is desired. */
  lemma FirstUpIsDesired(c: Config, checks: seq<Check>, i: nat)
    requires NothingHolds(c, checks)
    requires TunnelUp(c, checks, i) && forall j :: 0 <= j < i ==> !TunnelUp(c, checks, j)
    ensures DesiredMode(c, checks) == Mode(c.proxy.tag, c.tunnels[i].iface)
  {
    NothingHoldsMeansFirst(c, checks);
    UpIffHealthyCheck(c, checks, i);
    forall j: nat | j < i ensures !SomeHealthyCheck(checks, c.tunnels[j].iface) {
      assert !TunnelUp(c, checks, j);
      UpIffHealthyCheck(c, checks, j);
    }
    FirstHealthyIs(c, c.tunnels, checks, i);
  }

  /** With no tunnel up either, the fallback tag is desired. */
  lemma FallbackIsDesired(c: Config, checks: seq<Check>)
    requires NothingHolds(c, checks) && forall i: nat :: !TunnelUp(c, checks, i)
    ensures DesiredMode(c, checks) == Mode(c.failover.fallbackOutboundTag, "")
  {
    NothingHoldsMeansFirst(c, checks);
    forall t | t in c.tunnels ensures !SomeHealthyCheck(checks, t.iface) {
      var i :| 0 <= i < |c.tunnels| && c.tunnels[i] == t;
      assert !TunnelUp(c, checks, i);
      UpIffHealthyCheck(c, checks, i);
    }
  }

  /** In auto mode the first tunnel that is up is desired, whatever is in use. */
  lemma AutoTakesFirstUp(c: Config, checks: seq<Check>, i: nat)
    requires c.failover.mode != "manual" && c.failover.mode != "preferred"
    requires TunnelUp(c, checks, i) && forall j :: 0 <= j < i ==> !TunnelUp(c, checks, j)
    ensures DesiredMode(c, checks) == Mode(c.proxy.tag, c.tunnels[i].iface)
  {
    FirstUpIsDesired(c, checks, i);
  }

  /** Nothing is healthy and the fallback tag is empty, unlike the proxy tag. */
  ghost predicate NowhereToGo(c: Config, checks: seq<Check>) {
    NothingHealthy(c, checks) && c.failover.fallbackOutboundTag == "" && c.proxy.tag != ""
  }

  /** A desired mode is lost by ApplyMode exactly when nothing is healthy and the fallback tag is empty. */
  lemma DesiredExpressible(c: Config, checks: seq<Check>)
    ensures Expressible(c, DesiredMode(c, checks)) <==> !NowhereToGo(c, checks)
  {
    DesiredTagIs(c, checks);
  }

  /** After the desired mode has been applied, the same health checks desire nothing else. */
  lemma DesiredIsFixpoint(c: Config, checks: seq<Check>)
    requires Expressible(c, DesiredMode(c, checks))
    ensures var d := DesiredMode(c, checks);
            DesiredMode(Applied(c, d), checks) == d && CurrentMode(Applied(c, d)) == d
  {
    var d := DesiredMode(c, checks);
    FirstHealthyIgnoresMode(c, Applied(c, d), c.tunnels, checks);
  }

  lemma {:induction false} FirstHealthyIgnoresMode(c: Config, c': Config, tunnels: seq<Tunnel>, checks: seq<Check>)
    requires c'.proxy.tag == c.proxy.tag && c'.failover == c.failover
    ensures FirstHealthyMode(c', tunnels, checks) == FirstHealthyMode(c, tunnels, checks)
  {
    if tunnels == [] {
    } else {
      FirstHealthyIgnoresMode(c, c', tunnels[1..], checks);
    }
  }

  // ---- the manager ----

  /** What a tick observes from outside: health, clock, and whether the config save succeeded. */
  datatype Tick = Tick(checks: seq<Check>, now: int, saved: bool)

  /** The configuration on disk and the debounce state in memory. */
  datatype World = World(config: Config, state: State)

  ghost predicate Changes(w: World, t: Tick) { ReasonFor(w.config, w.state, t.checks, t.now).ConfirmedChange? }

  ghost function Step(w: World, t: Tick): World {
    World(
      if Changes(w, t) && t.saved then Applied(w.config, DesiredMode(w.config, t.checks)) else w.config,
      NextState(w.config, w.state, t.checks, t.now))
  }

  datatype StateFile = Stored(state: State) | Unreadable

  const DEFAULT_STATE_PATH := "/var/lib/zeroone/failover-state.json"

  function StatePath(path: string): string { OrDefault(path, DEFAULT_STATE_PATH) }

  /** A missing state file reads as the empty state; an unreadable one leaves the state in memory. */
  function LoadedState(files: map<string, StateFile>, path: string, memory: State): State {
    if StatePath(path) !in files then EMPTY
    else match files[StatePath(path)] case Stored(s) => s case Unreadable => memory
  }

  class Manager {
    var state: State
    var stateLoaded: bool
    var statePath: string
    var files: map<string, StateFile>
    var config: Config

    constructor (config: Config, files: map<string, StateFile>)
      ensures this.config == config && this.files == files
      ensures state == EMPTY && !stateLoaded
    {
      this.config, this.files := config, files;
      state, stateLoaded, statePath := EMPTY, false, "";
    }

    method LoadState(path: string)
      modifies this`state, this`stateLoaded, this`statePath
      ensures stateLoaded && statePath == StatePath(path)
      ensures state == if old(stateLoaded) && old(statePath) == StatePath(path) then old(state)
                       else LoadedState(files, path, old(state))
    {
      var p := if path == "" then DEFAULT_STATE_PATH else path;
      if stateLoaded && statePath == p { return; }
      if p !in files {
        state := EMPTY;
      } else if files[p].Stored? {
        state := files[p].state;
      }
      statePath, stateLoaded := p, true;
    }

    /** The in-memory state changes even when the file write fails. */
    method SetState(path: string, s: State, writeOk: bool)
      modifies this`state, this`files
      ensures state == s
      ensures files == if writeOk then old(files)[StatePath(path) := Stored(s)] else old(files)
    {
      var p := if path == "" then DEFAULT_STATE_PATH else path;
      state := s;
      if writeOk { files := files[p := Stored(s)]; }
    }

    method ApplyMode(m: Mode)
      modifies this`config
      ensures config == Applied(old(config), m)
    {
      if m.tag == config.proxy.tag {
        config := config.(routing := config.routing.(aiOutboundTag := ""));
        config := config.(proxy := config.proxy.(iface := m.iface));
        return;
      }
      config := config.(routing := config.routing.(aiOutboundTag := m.tag));
    }

    /** One tick on the configuration just loaded: exactly `Step`, whether or not the state file could be written. */
    method RunOnce(t: Tick, stateWritten: bool)
      modifies this`state, this`files, this`config
      ensures World(config, state) == Step(World(old(config), old(state)), t)
      ensures files ==
              if stateWritten then old(files)[StatePath(config.failoverStatePath) := Stored(state)] else old(files)
    {
      var decision, nextState := Decide(config, state, t.checks, t.now);
      SetState(config.failoverStatePath, nextState, stateWritten);
      if decision.pending { return; }
      if decision.effective == decision.current { return; }
      if t.saved { ApplyMode(decision.effective); }
    }

    /** One iteration of Run: nothing when the configuration cannot be loaded or failover is off, and one tick from the
        loaded state otherwise. The state survives a process restart if the last write succeeded. */
    method Iterate(t: Tick, loaded: bool, stateWritten: bool)
      modifies this
      ensures !loaded || !old(config).failover.enabled ==>
                && config == old(config) && state == old(state) && files == old(files)
                && stateLoaded == old(stateLoaded) && statePath == old(statePath)
      ensures loaded && old(config).failover.enabled ==>
                && World(config, state) == Step(World(old(config), old(StateToUse())), t)
                && stateLoaded && statePath == StatePath(config.failoverStatePath)
                && (stateWritten ==> forall memory :: LoadedState(files, config.failoverStatePath, memory) == state)
    {
      if !loaded { return; }
      if config.failover.enabled {
        LoadState(config.failoverStatePath);
        RunOnce(t, stateWritten);
      }
    }

    /** The state in memory if it belongs to the configured path, and what that path holds otherwise. */
    ghost function StateToUse(): State
      reads this
    {
      if stateLoaded && statePath == StatePath(config.failoverStatePath) then state
      else LoadedState(files, config.failoverStatePath, state)
    }
  }
}
