# zeroone: a verified model of the control plane

This project models the parts of zeroone that carry real state or arithmetic, and proves what they promise. Verify it with
`dafny verify dfyconfig.toml`.

| Files | Component |
|---|---|
| `Text`, `Counting` | strings, decimal numerals, `host:port`, `HH:MM`; multiplicities in sequences |
| `Failover`, `FailoverRuns` | the failover decision, its manager, and whole runs of it |
| `RelaySupervisor`, `XrayProc` | the two process supervisors as interleaved atomic steps |
| `Usage`, `Calendar`, `UsageRuns` | cumulative accounting over resettable counters, period deadlines, runs |
| `Stack`, `Mutate` | the configuration, its validation, the bandwidth-port allocator and the mutation that uses it |
| `Compile`, `InboundPorts`, `RoutingRules`, `RoutingFlows` | the xray inbounds, their ports and clients, outbounds and routing rules, and where the rules send traffic |
| `Query`, `Links`, `Agreement` | query encoding, VLESS links printed and parsed, links against compiled inbounds |
| `Bandwidth`, `Traffic` | limits, the nft/tc commands compiled from them, and the traffic those commands shape |
| `Store`, `StoreRuns` | the versioned binary store behind a symbolic link, its crash points, and histories with interruptions |
| `Ring` | the fixed-capacity metrics ring |
| `Samples` | a small valid configuration, from which the findings below take their inputs |

Code that updates fields or loops is a class or a method proved against a specification function; the theorems are about
those functions and hold for every input, run or reachable state.

How the outside world enters: health checks, clocks and save outcomes are arbitrary inputs of a failover tick; each
region under a supervisor's mutex is one step, and channels, signals and child exits are steps of their own that may
interleave in any order; counters may grow or be zeroed between two readings, and a sync is one step together with the
reading it applies, so readings are applied in the order they were taken; the kernel is an explicit state with one
rule for each nft/tc command; the file system of the store is a map of directories with a link, and each system call one
operation. Strings are sequences of octets, as in Go. Byte counters and ports are unbounded integers.

## Findings

Where a promise does not hold the code was kept as it is. Each finding names the exact condition under which the promise
holds, proved for all inputs, and an input or a run that a caller can meet and that breaks it.

* Failover can leave traffic nowhere to go (internal/failover/state.go:84, internal/failover/state.go:173). The tag it
  falls back to, `failover.fallback_outbound_tag`, is never compared with the outbounds, so one tick can turn closed
  routing rules into a rule without an outbound. Exactly when: `RoutingRules.FailoverClosedIff`,
  `RoutingRules.FailoverKeepsClosedIff`; an input: `RoutingRules.FailoverCanBreakRouting`.
* With nothing healthy and an empty fallback tag the desired mode is never reached, in a run of any length
  (internal/failover/state.go:84, internal/failover/state.go:173). Exactly when: `FailoverRuns.SteadyRunSettlesIff`; an
  input: `FailoverRuns.ValidConfigCanBeStuck`.
* A cancelled relay supervisor can leave a child running (internal/relay/supervisor.go:84-86,
  internal/relay/supervisor.go:98-133): a stop that begins between manageChild's check of the context and its start may
  succeed and a child be started after it. Exactly when: `RelaySupervisor.ShutdownIsCleanIff`; a run:
  `RelaySupervisor.ShutdownCanLeaveAChild`.
* A `Restart` of xray that is refused with "not running" makes the next crash respawn without backoff
  (internal/xrayproc/supervisor.go:137-144). Exactly when a crash does: `XrayProc.ImmediateRespawnIff`; a run:
  `XrayProc.RefusedRestartHidesACrash`.
* The comment on `commitInstall` says that the live link never points at partial state
  (internal/xrayinstall/swap.go:116-118). Within one installation that fails exactly when the live version is installed
  again (`Store.NeverDanglesIff`). Over histories a usable link is lost in one more way, by a rollback onto a directory
  that an interruption left partial. Exactly when: `StoreRuns.LiveIsLostIff`, `StoreRuns.RollbackIsLiveIff`; a history:
  `StoreRuns.RollbackCanDangle`.
* `Rollback` goes to the second newest directory, not to the previous version (internal/xrayinstall/swap.go:300-301), and
  a second rollback records the live version as its own predecessor (`StoreRuns.SecondRollbackStays`). Exactly when it
  undoes an installation: `StoreRuns.RollbackUndoesInstallIff`; a run: `StoreRuns.RollbackCanMiss`.
* Readings applied out of order overstate a user's traffic, since the older one looks like a counter restart
  (internal/usage/usage.go:42-64, internal/usage/usage.go:157-166). In order a total never exceeds the traffic
  (`UsageRuns.TotalsBounded`); for two readings of a running counter in the wrong order, exactly when it does:
  `UsageRuns.OutOfOrderOvercounts`.
* Validation does not make user ids distinct (internal/stack/config.go:710-717), so a disabled user's id can be let in on
  an enabled user's account. Exactly when an id is let in: `Compile.AdmitsIdIff`, `Agreement.FirstLinkAdmitsIff`; an
  input: `Agreement.SharedIdAdmitsTheDisabled`.
* The allocator ignores the sni-spoof port (internal/stack/mutate.go:246-255), so limiting a user can make a valid
  configuration invalid. Exactly when: `Mutate.StaysValidIff`; an input: `Mutate.LimitingCanInvalidate`.
* The ports that the generator substitutes for unset ones can clash with configured ones
  (internal/xray/generate.go:161-163, internal/xray/generate.go:168-170). Exactly when:
  `InboundPorts.InboundPortsDistinctIff`; an input: `InboundPorts.ValidConfigCanClash`.
* The 899th limited user takes over the default class (internal/bandwidth/plan.go:95). Exactly when the limits of a valid
  configuration are enforced on every kernel, users keep classes of their own, and the default class its rate:
  `Traffic.ConfigIsEnforcedIff`, `Traffic.OwnClassesIff`, `Traffic.DefaultKeepsRateIff`; inputs:
  `Traffic.CrowdIsNotEnforced`.

## Model

| member | source | states |
|---|---|---|
| FailoverLoop.Decide | internal/failover/state.go:112-165 | the step-by-step decision is the specified one: settled, cooling down, counting confirmations or confirmed, with the next debounce state |
| FailoverLoop.ApplyRoundTrip | internal/failover/state.go:167-174 | the mode read back after applying a mode is that mode exactly when the tag is the proxy tag, or non-empty with no interface |
| FailoverLoop.DesiredTagIs | internal/failover/state.go:76-110 | the loop wants the proxy tag while anything is healthy and the failover fallback tag otherwise |
| FailoverLoop.PreferredIsDesired | internal/failover/state.go:45-58 | in preferred mode the first tunnel of the preferred name is desired if the first check on its interface is healthy |
| FailoverLoop.ManualIsKept | internal/failover/state.go:61-107 | in manual mode the interface in use is kept if the first check on it is healthy |
| FailoverLoop.FirstUpIsDesired | internal/failover/state.go:76-109 | otherwise the first tunnel in priority order with a healthy check is desired |
| FailoverLoop.AutoTakesFirstUp | internal/failover/state.go:76-109 | in auto mode that is so whatever is in use |
| FailoverLoop.FallbackIsDesired | internal/failover/state.go:76-109 | with no tunnel up either, the fallback tag is desired |
| FailoverLoop.DesiredExpressible | internal/failover/state.go:76-174 | a desired mode is lost by applying it exactly when nothing is healthy and the fallback tag is empty, unlike the proxy tag |
| FailoverLoop.DesiredIsFixpoint | internal/failover/state.go:91-110 | once the desired mode is applied, the same health checks desire nothing else |
| FailoverLoop.Manager.LoadState | internal/failover/manager.go:100-115 | the state is re-read only when the path changes; a missing file reads as empty, an unreadable one keeps the memory |
| FailoverLoop.Manager.SetState | internal/failover/manager.go:117-125 | the state in memory changes even when the file cannot be written |
| FailoverLoop.Manager.ApplyMode | internal/failover/state.go:167-174 | the in-place update of tag and interface is the specified one |
| FailoverLoop.Manager.RunOnce | internal/failover/manager.go:46-84 | one tick: the new state is kept whatever happens, the configuration changes only on a confirmed change that was saved |
| FailoverLoop.Manager.Iterate | internal/failover/manager.go:22-44 | one iteration is nothing when the configuration cannot be loaded or failover is off, and one tick from the loaded state otherwise; after a successful write a restarted process resumes that state |
| FailoverRuns.ChangesAreSpaced | internal/failover/state.go:128-163 | in every run with nondecreasing positive times two confirmed changes are a cooldown apart, unless in preferred mode the later one goes to an interface of the preferred tunnel |
| FailoverRuns.ChangeWasConfirmed | internal/failover/state.go:112-165 | in auto or manual mode, while the cooldown is not raised during the run, a confirmed change was desired, and differed from the current mode, at each of the last max(1, confirmations) ticks |
| FailoverRuns.ChangeWasConfirmedByUnblocked | internal/failover/state.go:137-155 | in every mode the same holds over the last ticks that the cooldown did not block |
| FailoverRuns.ChangeIff | internal/failover/state.go:112-165 | in every mode, under any clock and any configuration edits, a tick changes the mode exactly when it wants another one, is not blocked by the cooldown, and is the last of max(1, confirmations) such ticks since the last change that wanted that mode without a break |
| FailoverRuns.UnsavedChangesNothing | internal/failover/manager.go:46-84 | as long as no save succeeds the configuration stays as it is |
| FailoverRuns.SteadyRunSettles | internal/failover/state.go:31-174 | with constant health and successful saves a run makes at most one change, reaches the desired mode within cooldown + max(1, confirmations) ticks and stays |
| FailoverRuns.InexpressibleIsNeverReached | internal/failover/state.go:76-85 | with nothing healthy and an empty fallback tag no run reaches the fallback |
| FailoverRuns.SteadyRunSettlesIff | internal/failover/state.go:31-174 | a long enough steady run ends in the mode it desires exactly when something is healthy, or the fallback tag is set, or the proxy tag is empty too |
| FailoverRuns.ValidConfigCanBeStuck | internal/failover/state.go:76-174 | a valid configuration that no run of any length brings to the mode it desires |
| FailoverRuns.PreferredIsReached | internal/failover/state.go:91-164 | a preferred tunnel whose first check is healthy for max(1, confirmations) ticks is reached whatever the cooldown, and kept |
| FailoverRuns.ManualSticks | internal/failover/state.go:101-107 | in manual mode a run whose interface stays healthy never changes |
| RelaySupervisor.OneLiveChild | internal/relay/supervisor.go:148-230 | in every reachable state at most one child lives, it is the current one, no child is waited for twice and no channel closed twice |
| RelaySupervisor.StopSawItsOwnChildDie | internal/relay/supervisor.go:200-231 | a stop that returns on the exit channel stopped the child it found: dead and waited for, then and ever after |
| RelaySupervisor.NoLostReload | internal/relay/supervisor.go:61-68 | an announced configuration that is not loaded still has a buffered token or the manage loop is on its way to load |
| RelaySupervisor.WatchedChildIsCurrent | internal/relay/supervisor.go:95-146 | a watched live child runs the configuration loaded last, unless a stop gave up after SIGKILL |
| RelaySupervisor.CrashedChildIsReplaced | internal/relay/supervisor.go:95-146 | from watching without a child the loop's next steps start one with the configuration on disk, without a backoff |
| RelaySupervisor.AnotherStartIsPossible | internal/relay/supervisor.go:95-146 | from every reachable uncancelled state some continuation starts another child with the configuration on disk |
| RelaySupervisor.StopComesFirst | internal/relay/supervisor.go:95-146 | after loading a disabled configuration, or taking a reload while watching, the loop does nothing before it has begun a stop |
| RelaySupervisor.ShutdownCanLeaveAChild | internal/relay/supervisor.go:70-93 | a run in which cancellation ends with a live child, no stop pending |
| RelaySupervisor.NoStartAfterCancel | internal/relay/supervisor.go:95-146 | once the context is cancelled, and the manage loop is not between its check and a start, no child is ever started |
| RelaySupervisor.NoStartAfterFinish | internal/relay/supervisor.go:95-100 | once the manage loop has returned it stays so and no child is ever started |
| RelaySupervisor.LateStopLeavesNoChild | internal/relay/supervisor.go:200-231 | a stop that begins after cancellation outside that window, and succeeds, leaves no child alive, then and ever after |
| RelaySupervisor.EarlyStopCanLeaveAChild | internal/relay/supervisor.go:84-146 | from every reachable state inside the window some continuation lets the stop succeed and ends with the loop finished and a child alive |
| RelaySupervisor.ShutdownIsCleanIff | internal/relay/supervisor.go:84-146 | in every reachable cancelled state, also after a stop has given up: a stop that begins now and succeeds is sure to leave no child alive exactly when the loop is outside the window |
| RelaySupervisor.Supervisor.StartChild | internal/relay/supervisor.go:148-198 | starting is a no-op when a child is current; otherwise the new child becomes current with its own channel |
| RelaySupervisor.Supervisor.StopBegin | internal/relay/supervisor.go:200-213 | raises the wanted flag and snapshots command and channel |
| RelaySupervisor.Supervisor.StopEnd | internal/relay/supervisor.go:206-210 | the deferred region lowers the flag |
| RelaySupervisor.Supervisor.ChildReaped | internal/relay/supervisor.go:184-196 | the wait goroutine clears the command without looking at it and counts a restart |
| RelaySupervisor.Supervisor.Reload | internal/relay/supervisor.go:61-68 | a non-blocking send on a channel of capacity one |
| XrayProc.OneLiveChild | internal/xrayproc/supervisor.go:86-133 | at most one child lives, each has at most one wait, a start never meets a current command, the backoff stays in 1..60 |
| XrayProc.RunReturnsClean | internal/xrayproc/supervisor.go:173-189 | when Run returns every child is dead and was waited for exactly once, except the last one after a kill timed out |
| XrayProc.RunReturnsOnlyWhenCancelled | internal/xrayproc/supervisor.go:86-133 | Run returns only after cancellation |
| XrayProc.AnotherStartIsPossible | internal/xrayproc/supervisor.go:86-133 | from every reachable uncancelled state some continuation starts another child |
| XrayProc.NoStartAfterCancel | internal/xrayproc/supervisor.go:86-133 | once cancelled Run starts no child, unless it was past its check of the context |
| XrayProc.BackoffIs | internal/xrayproc/supervisor.go:86-133 | after n sleeps without an answered Restart the next wait is min(60, 2^n) seconds |
| XrayProc.AttemptsArePaced | internal/xrayproc/supervisor.go:86-133 | between two attempts to start a sleep has ended or a Restart been answered |
| XrayProc.RestartSawItsChildDie | internal/xrayproc/supervisor.go:137-167 | a Restart that returns because the command moved on has outlived the child it signalled |
| XrayProc.ImmediateRespawnIff | internal/xrayproc/supervisor.go:113-131 | after an exit Run goes straight to the next start, backoff reset, exactly when the run has a Restart call between the previous exit and this one, and sleeps first otherwise |
| XrayProc.RefusedRestartHidesACrash | internal/xrayproc/supervisor.go:137-144 | a run in which a refused Restart suppresses the backoff of a later crash |
| XrayProc.Supervisor.Start | internal/xrayproc/supervisor.go:233-270 | refuses a current command, otherwise installs the new one and counts it |
| XrayProc.Supervisor.ClearCommand | internal/xrayproc/supervisor.go:113-118 | reads and lowers the flag, clears the command |
| XrayProc.Supervisor.RestartBegin | internal/xrayproc/supervisor.go:137-144 | raises the flag before it is known whether anything runs |
| Usage.SyncedStep | internal/usage/usage.go:153-187 | readings may be processed one at a time in any order |
| Usage.UserState.SyncUsers | internal/usage/usage.go:153-187 | the loop over a map credits every delta to the total and the three period counters and stores the reading |
| Usage.UserState.ResetUsers | internal/usage/usage.go:189-207 | known users restart from their present reading, everybody else is forgotten |
| Usage.UserState.CheckUser | internal/usage/reset.go:79-115 | one user's rollover: seed, or zero and set the next deadline |
| Usage.UserState.ApplyPeriodResets | internal/usage/reset.go:79-115 | the loop over users, and whether anything changed; what the check does is stated by UsageRuns.CheckedAllEffect and UsageRuns.DailyIsAtWrittenTime |
| Calendar.NextDailyIsFirst | internal/usage/reset.go:120-131 | the daily deadline is the first HH:MM strictly after now |
| Calendar.NextWeeklyIsFirst | internal/usage/reset.go:133-143 | the weekly deadline is the first Monday midnight strictly after now |
| Calendar.NextMonthlyIsFirst | internal/usage/reset.go:145-149 | the monthly deadline is the first first-of-month midnight strictly after now, leap years included |
| Calendar.Anchors | internal/usage/reset.go:133-149 | the model's day count agrees with the calendar: from 1 January 1970 the first Monday is the 5th and the first month start 1 February |
| Text.ParseHHMMIff | internal/stack/config.go:928-942 | a time of day is accepted exactly when the text, spaces aside, is an hour, a colon and a minute, and reads as these |
| Text.TwoDigitClock | internal/stack/config.go:928-942 | in particular %02d:%02d reads as it was written |
| Text.HostPortSplits | internal/stack/config.go:944-957 | host:port and [host]:port split into host and port |
| Text.SplitIsHostPort | internal/stack/config.go:944-957 | nothing else is split |
| UsageRuns.NextMetaIsFirst | internal/usage/reset.go:79-149 | every deadline that is set is the first boundary after now |
| UsageRuns.CheckedAllEffect | internal/usage/reset.go:79-115 | however many boundaries were missed, a listed user's counter is zeroed once, and a stale deadline moves to a first boundary after now; other users keep both |
| UsageRuns.DailyIsAtWrittenTime | internal/usage/reset.go:79-165 | a stale daily deadline moves to the first moment after now at the hour and minute that the text of the reset time stands for |
| UsageRuns.TwoDigitsAreTheTime | internal/usage/reset.go:79-165 | with a text of two digits each that is within a day from now, at exactly this time of day |
| UsageRuns.FullResetIs | internal/usage/usage.go:189-207 | after a full reset known and read users are at zero with that reading as baseline, and no period is seeded |
| UsageRuns.CheckedIsFuture | internal/usage/reset.go:79-115 | afterwards every deadline of every listed user lies in the future |
| UsageRuns.CheckIsIdempotent | internal/usage/reset.go:79-115 | a second call at the same instant changes nothing |
| UsageRuns.TotalsBounded | internal/usage/usage.go:153-187 | in every run that applies readings in the order they were taken, a total never exceeds the true traffic since the last full reset |
| UsageRuns.OutOfOrderOvercounts | internal/usage/usage.go:42-64 | two readings of a running counter applied in the wrong order overstate the traffic exactly when the older one is non-zero and different |
| UsageRuns.TotalsGrow | internal/usage/usage.go:153-187 | totals never decrease except by a full reset |
| UsageRuns.HiddenIffUnseen | internal/usage/usage.go:157-166 | a counter restart escapes notice exactly when the new counter has already passed the old reading |
| UsageRuns.TotalIsSumOfEpochsIff | internal/usage/usage.go:153-187 | a total is the sum of each epoch's last observed value exactly when no restart was hidden |
| UsageRuns.PeriodCounterIsGap | internal/usage/reset.go:79-115 | each period counter is the total now minus the total at its last rollover or reset, hence between 0 and the total |
| Stack.EnabledDomains | internal/stack/config.go:107-126 | the enabled, non-empty domains in order |
| Stack.RoutedDomainsAre | internal/stack/config.go:107-126 | a domain is routed exactly when it is that of an enabled site and not empty |
| Stack.AddPort | internal/stack/config.go:655-664 | a port is refused exactly when it is non-zero and already taken |
| Stack.Validate | internal/stack/config.go:629-857 | the checks in source order succeed exactly on the valid configurations |
| Mutate.NextBandwidthPort | internal/stack/mutate.go:239-262 | the least port in 21000..21999 that no configured listener uses |
| Mutate.AllocatorFailsIffFull | internal/stack/mutate.go:239-262 | it fails exactly when all 1000 ports are used, so never with fewer than 996 users and SOCKS inbounds |
| Mutate.ConfigCell.SetUserBandwidth | internal/stack/mutate.go:216-237 | the rates are the ones asked for, the port is dropped, kept or the least free one, and nothing else changes (`Limits`); the error, including that a failed call may leave the configuration changed |
| Mutate.UpdatedUserLimits | internal/stack/mutate.go:216-237 | the same of the specification function |
| Mutate.StaysValidIff | internal/stack/mutate.go:216-262 | with non-negative rates a valid configuration stays valid, also when no port is free, exactly when the allocated port is not the sni-spoof port |
| Mutate.StaysValid | internal/stack/mutate.go:216-262 | so it stays valid when sni-spoof is off or listens outside the range |
| Mutate.LimitingCanInvalidate | internal/stack/mutate.go:216-262 | a valid configuration that limiting a user makes invalid |
| Compile.GenerateInbounds | internal/xray/generate.go:12-38 | the inbound list: shared WebSocket, public SOCKS, one per limited user, local SOCKS, shared xhttp, API |
| Compile.AdmissionIs | internal/xray/generate.go:12-38 | an enabled user is listed in both shared inbounds or in exactly one own inbound, never both; a disabled user in none |
| Compile.AdmitsIdIff | internal/xray/generate.go:12-38 | an inbound lets in a user id exactly when some user with that id is served there; ids may be shared |
| Compile.ReachableIs | internal/xray/generate.go:12-38 | off loopback there are only the shared WebSocket inbound, the managed SOCKS inbounds behind their passwords, and one inbound for each limited user |
| Compile.EverySOCKSIsThere | internal/xray/generate.go:141-143 | every managed SOCKS entry has its inbound |
| Compile.APIInboundIs | internal/xray/generate.go:167-172 | exactly the last inbound carries the API tag, and it listens on loopback |
| InboundPorts.InboundPortsDistinctIff | internal/xray/generate.go:160-172 | the inbound ports of a valid configuration are pairwise distinct exactly when the substituted defaults are free and at most one other port is unset |
| InboundPorts.ConfiguredPortsAreDistinct | internal/xray/generate.go:12-38 | in particular when every configured port is non-zero |
| InboundPorts.DefaultCanClash | internal/xray/generate.go:160-165 | a zero local-SOCKS port and a SOCKS inbound on 10808 clash in every valid configuration that has both |
| InboundPorts.ValidConfigCanClash | internal/xray/generate.go:160-165 | such a valid configuration |
| RoutingRules.GenerateOutbounds | internal/xray/generate.go:39-45 | proxy, fallback, direct, block, then the plugin outbounds that are emitted |
| RoutingRules.GenerateRules | internal/xray/generate.go:266-334 | the rule list in order; what the order means is stated by RoutingFlows.NamedTrafficIs and RoutingFlows.OtherTrafficIs |
| RoutingFlows.NamedTrafficIs | internal/xray/generate.go:266-300 | by the first matching rule, API traffic goes to the API, refused QUIC is blocked, traffic listed as direct goes direct, and traffic listed as blocked and not as direct is blocked |
| RoutingFlows.OtherTrafficIs | internal/xray/generate.go:266-334 | of all other traffic AI domains go to the AI tag, then relay traffic to the relay, then sni-spoof traffic to sni-spoof, and the rest matches no rule |
| RoutingFlows.FailoverMovesAITraffic | internal/failover/state.go:167-174 | applying a failover mode sends the AI traffic to its tag and leaves all other traffic where it goes |
| RoutingRules.ClosedIff | internal/xray/generate.go:266-334 | every rule of a valid configuration targets `api` or an emitted outbound exactly when there is no AI rule or the AI tag is emitted |
| RoutingRules.FailoverClosedIff | internal/failover/state.go:76-174 | a failover decision keeps the rules closed exactly when there is no AI rule or the tag it sets is empty, `api` or an emitted outbound |
| RoutingRules.FailoverKeepsClosedIff | internal/failover/state.go:76-174 | whatever the health checks say, the rules stay closed exactly when there is no AI rule or the failover fallback tag is empty, `api` or an emitted outbound |
| RoutingRules.FailoverCanBreakRouting | internal/failover/state.go:76-174 | a valid configuration with closed rules that one failover tick leaves valid with a rule that leads nowhere |
| RoutingRules.RelayEmittedIffTargeted | internal/xray/generate.go:206-231 | the relay outbound is emitted exactly when the relay is enabled and some rule targets it, except, exactly, when only AI rules target an enabled relay without domains and inbounds of its own |
| RoutingRules.SpoofEmittedIffTargeted | internal/xray/generate.go:233-249 | the same for the sni-spoof outbound |
| RoutingRules.ValidListenParses | internal/xray/generate.go:251-264 | every listen address that validation accepts can be compiled |
| RoutingRules.RelayAddressIs | internal/xray/generate.go:251-264 | the relay outbound goes to the listener's host and port, with loopback for a wildcard or missing host |
| RoutingRules.DefaultListenIs | internal/stack/config.go:77-170 | unset listen addresses stand for loopback on 8085 and 8087 |
| Query.QueryRoundTrip | internal/links/links.go:122-143 | parsing an encoded query gives back every setting, for any octets (form encoding, section 2.1 of RFC 3986 with '+' for space) |
| Links.VlessLink | internal/links/links.go:122-143 | the link printer, setting by setting |
| Links.SplitHTTPCompatLink | internal/links/links.go:145-174 | the compatibility link printer |
| Links.VlessLinkRoundTrip | internal/subscription/encode.go:233-258 | the parser inverts the printer for any network, path, mode and name; it fails exactly on a negative port |
| Links.CompatLinkRoundTrip | internal/subscription/encode.go:233-258 | the same for the compatibility link |
| Links.LinksCarryTheRest | internal/links/links.go:122-168 | a link also carries its name, no encryption, and for native xhttp the client tuning |
| Agreement.VLESS | internal/links/links.go:71-107 | the links of a user, in order, are read by a client as exactly the specified offers |
| Agreement.EnabledEndpointsAreOffered | internal/links/links.go:71-107 | a limited user gets the one link to the own port, any other one a link to every enabled endpoint and a second one where the compatibility transport is asked for |
| Agreement.OffersAre | internal/links/links.go:71-107 | every link is a direct one that the xhttp settings ask for or that of an enabled endpoint, and a user disabled by hand has none |
| Agreement.FirstLinkAdmitsIff | internal/links/links.go:71-84 | the id of a user's limited or direct link is let in at the address the link names exactly when some user served there carries it |
| Agreement.FirstLinkAdmitsIffEnabled | internal/links/links.go:71-84 | with distinct ids: exactly when the user is enabled, and the id of a user without links is let in nowhere |
| Agreement.SharedIdAdmitsTheDisabled | internal/links/links.go:71-84 | a valid configuration that lets in the id of a disabled user without links |
| Agreement.XHTTPLinkAgrees | internal/links/links.go:85-92 | the direct xhttp link has the path and mode of the local xhttp inbound, which lets in its id exactly when some enabled user without a limit carries it |
| Bandwidth.ActiveLimits | internal/bandwidth/plan.go:50-65 | the limits of exactly the limited users, sorted by email |
| Text.LessIff | internal/bandwidth/plan.go:50-65 | the order of the emails is lexicographic |
| Bandwidth.ValidLimitsAreUnique | internal/bandwidth/plan.go:50-65 | for a valid configuration there is only one such list |
| Bandwidth.ValidLimitsAreGood | internal/bandwidth/plan.go:50-65 | its ports are positive and distinct |
| Traffic.BuildNFTScript | internal/bandwidth/plan.go:67-78 | one mark rule per limit |
| Traffic.ApplyCommands | internal/bandwidth/apply.go:58-116 | the ordered command list, or the cleanup list without limits |
| Traffic.TCCommands | internal/bandwidth/plan.go:80-119 | the preview is the applied sequence without the nft deletion |
| Traffic.Host.Apply | internal/bandwidth/apply.go:31-56 | commands run in order up to the first failure that is not ignored |
| Traffic.CommandsBuild | internal/bandwidth/apply.go:58-116 | from any kernel state the commands all succeed and leave exactly the tree built from the limits |
| Traffic.CleanupCleans | internal/bandwidth/apply.go:58-70 | without limits they remove the table and the filters |
| Traffic.DownloadsAreShaped | internal/bandwidth/plan.go:67-119 | traffic from a download-limited port lands in that user's class, which has that user's rate |
| Traffic.OthersGetDefault | internal/bandwidth/plan.go:80-119 | all other traffic lands in the default class |
| Traffic.LandsOnce | internal/bandwidth/plan.go:80-119 | a packet lands in one class |
| Traffic.OwnClassesIff | internal/bandwidth/plan.go:80-119 | every download-limited user has a class that no other port's traffic enters and that is not the default one, exactly when no 899th user limits downloads |
| Traffic.MarksAreDistinct | internal/bandwidth/plan.go:67-78 | two ports are never given the same mark |
| Traffic.UploadsArePoliced | internal/bandwidth/plan.go:80-119 | ingress to a limited port is policed at the upload rate, other ingress not at all |
| Traffic.DefaultKeepsRateIff | internal/bandwidth/apply.go:58-116 | after the commands have run on any kernel, the default class has its full rate exactly when no 899th user takes it over with another |
| Traffic.ValidConfigIsEnforced | internal/bandwidth/apply.go:58-116 | for a valid configuration with at most 898 limited users, or an 899th without a download limit, running the commands on any kernel gives every limited user an own class of the download rate and policing at the upload rate, and everything else the default class |
| Traffic.ConfigIsEnforcedIff | internal/bandwidth/apply.go:58-116 | the limits of all users of a valid configuration are enforced on any kernel exactly when no 899th user limits downloads |
| Traffic.SetBandwidthIsEnforced | internal/stack/mutate.go:216-237 | after SetUserBandwidth on an enabled user, a valid result and the commands run on any kernel, downloads from the user's port have a class of their own of the rate asked for and uploads are policed at the rate asked for |
| Traffic.CrowdIsNotEnforced | internal/bandwidth/plan.go:95-101 | valid configurations of 899 users and more on which some user's limit is not enforced, on any kernel |
| Store.Installer.CommitInstall | internal/xrayinstall/swap.go:119-222 | the completed installation is the ordered operation list; a missing or unsafe version name changes nothing |
| Store.TokenIsOneComponent | internal/xrayinstall/versions.go:10-32 | an accepted version name is one path component, neither `.` nor `..`; plain names are accepted |
| Store.InstalledResolves | internal/xrayinstall/resolve.go:25-53 | after a completed installation the new binary is used, with the store's own assets exactly if it brought or had a geoip file |
| Store.Installer.RotateOldVersions | internal/xrayinstall/swap.go:227-260 | exactly the versions beyond the two newest are deleted, but never the kept one |
| Store.Installer.ListVersions | internal/xrayinstall/swap.go:263-290 | every version once, newest first |
| Store.Installer.Rollback | internal/xrayinstall/swap.go:295-324 | the link flips to the second newest version; with fewer than two nothing changes |
| Store.Installer.ResetToImage | internal/xrayinstall/swap.go:329-343 | everything is deleted |
| Store.Installer.Resolve | internal/xrayinstall/resolve.go:25-53 | the override when the link leads to an executable, otherwise the image |
| Store.CrashKeepsALiveBinary | internal/xrayinstall/swap.go:142-170 | at every crash point of installing a version other than the live one the link leads to the old binary before the flip and the new one after |
| Store.NeverDanglesIff | internal/xrayinstall/swap.go:112-170 | an interrupted installation leaves the old or the new binary live exactly when it does not reinstall the usable live version |
| Store.CommitIs | internal/xrayinstall/swap.go:119-260 | the tree that a completed installation leaves |
| Store.ResetCrash | internal/xrayinstall/swap.go:329-343 | an interrupted reset changes nothing in use until the link is gone and leaves the image in use from then on, whatever order the entries are deleted in |
| Store.ResetIs | internal/xrayinstall/swap.go:329-343 | a completed reset leaves a fresh store |
| StoreRuns.RunKeepsSound | internal/xrayinstall/swap.go:119-343 | over any run of completed operations with increasing times the link leads to an intact binary and at most two versions remain |
| StoreRuns.PartialDirectoriesAre | internal/xrayinstall/swap.go:119-343 | through any history of completed and interrupted operations, exactly which version directories lack a usable binary |
| StoreRuns.RollbackIsLiveIff | internal/xrayinstall/swap.go:295-310 | a rollback in any history leaves a live binary exactly when the second newest directory is intact, that is, not left partial |
| StoreRuns.LiveIsLostIff | internal/xrayinstall/swap.go:119-343 | a usable live link stops being usable exactly by an early stop in reinstalling the live version, a rollback onto a partial directory, or a reset |
| StoreRuns.RollbackCanDangle | internal/xrayinstall/swap.go:119-310 | a history in which a rollback makes the link lead to a directory without a binary |
| StoreRuns.RollbackUndoesInstallIff | internal/xrayinstall/swap.go:295-313 | rolling back an installation restores the previous live version exactly when that is present, is not the one just installed, and was the newest of the others |
| StoreRuns.RollbackCanMiss | internal/xrayinstall/swap.go:295-313 | a run in which it restores another one |
| StoreRuns.SecondRollbackStays | internal/xrayinstall/swap.go:295-317 | a second rollback changes the link no further and loses the previous version from the record |
| Ring.Series.Append | internal/metrics/ringbuffer.go:32-42 | the history grows by the sample, whatever the ring overwrites |
| Ring.Series.Snapshot | internal/metrics/ringbuffer.go:44-60 | the last min(n, capacity) samples in order, from the given time on |
| Ring.SnapshotIs | internal/metrics/ringbuffer.go:44-60 | a snapshot holds exactly the samples from the given time on among the capacity appended last |
| Ring.SinceAt | internal/metrics/ringbuffer.go:44-60 | each of them stands behind as many as there are such samples before it |
| Ring.Series.ReadSlot | internal/metrics/ringbuffer.go:44-60 | the slot a snapshot reads holds the sample at that position of the kept history |

## Left out

- HTTP handlers, the panel, `cmd/edge-relay`, password hashing, sessions and tokens: plumbing, user interface and library calls.
- The manual mode-switch handler: it rewrites the failover state file while the running manager keeps its own copy.
- Tunnel probing, the xray reload after a saved failover change, and the history file: outside the decision and its state.
- FailoverLoop.Manager.LoadState: the JSON text of the state file is not modelled, only whether it can be read and what it holds.
- Stack.Validate: the admin accounts are not modelled, and the xhttp tuning ranges, the tunnel address and the sign checks of sni-spoof enter as their outcomes.
- Stack.AddPort: the owner text in an error names the right owner, but the error is not compared word by word.
- RelaySupervisor.OneLiveChild: real processes, pids and signals are steps that may or may not happen; probes, status reports and the length of the pause after a failed start are not modelled.
- XrayProc.OneLiveChild: log files, the last exit error and the binary and asset providers are not modelled.
- UsageRuns.TotalsBounded: the load and the save around a sync or a period check are one step; two that overlap may lose one's update or apply readings out of order.
- Byte counters are unbounded; wrap-around at 64 bits is not modelled.
- Text.ParseHHMMIff: only ASCII white space counts as space around a time of day.
- Calendar.NextDailyIsFirst: a fixed offset from UTC; time zones with daylight saving are not modelled.
- Quota and session planning, snapshot pruning, destination counting, version comparison: easier members.
- Mutate.ConfigCell.SetUserBandwidth: the other mutators are not modelled; slices that two configurations share in Go are separate here.
- Compile.GenerateInbounds: sniffing, stream tuning and socket options of the inbounds are not modelled.
- RoutingFlows.NamedTrafficIs: which patterns cover a destination is given with the flow, and the match strategy of xray that may resolve a domain first is not modelled.
- Links.VlessLinkRoundTrip: user ids and hosts that need escaping are not covered; an IPv6 host in brackets is refused by the modelled parser.
- Agreement.VLESS: display names are a function given by the caller; the JSON of the xhttp tuning is given as text.
- The Clash and sing-box documents that are built from parsed links: formatting.
- Traffic.ApplyCommands: the temporary nft file, and the hexadecimal reading of class ids beyond 9999, are not modelled.
- Store.Installer.CommitInstall: download, unpacking, checksums, the smoke test, permissions and the error of a single failing deletion during rotation are not modelled; an error return is a crash point.
- The installation job lock: it does not hold what it advertises, since a job is cleared after another may have begun.
