/**
 The relay supervisor as interleaved atomic steps: the manage loop, one wait goroutine per child, any number of
 stop/restart callers, reload callers, and the children themselves. Each region under the mutex is one step.
 */
module RelaySupervisor {
  import opened Text

  /** Where the wait goroutine of a child stands: in Wait, returned from it, past its locked region, past its close. */
  datatype Waiter = InWait | Reaped | Cleared | Closed

  /** `waits` counts completed Wait calls on the child, `closes` the closes of its `exited` channel;
      `version` is the configuration it was started with. */
  datatype Child = Child(alive: bool, waiter: Waiter, waits: nat, closes: nat, version: nat)

  /** A stopChild call after its first locked region: waiting with grace, waiting after the kill, or about to return. */
  datatype Stopping =
    | Grace(cmd: nat, exited: nat)
    | Killing(cmd: nat, exited: nat)
    | Returning(saw: Option<nat>)

  datatype Caller = ManageLoop | Other(id: nat)

  /** What manageChild decides after a successful LoadConfig. */
  datatype Verdict = Disabled | NotManaged | StartIt

  datatype Manage =
    | Top | Loading | LoadFailed | Judged(verdict: Verdict)
    | StopFirst(thenPark: bool) | InStop(thenPark: bool)
    | Parked | Watching | Finished

  datatype State = State(
    cmd: Option<nat>, exited: Option<nat>, wantStop: bool, restarts: nat,   // fields under the mutex
    token: bool,                                                           // the reload channel, capacity one
    children: seq<Child>, stops: map<Caller, Stopping>, manage: Manage,
    disk: nat, announced: nat, loaded: nat,                                // configuration versions
    // gaveUp: a stop by the manage loop timed out twice
    cancelled: bool, gaveUp: bool)

  const INIT := State(None, None, false, 0, false, [], map[], Top, 0, 0, 0, false, false)

  datatype Event =
    | ChildExits(i: nat) | WaitReturns(i: nat) | WaitClears(i: nat) | WaitCloses(i: nat)
    | StopBegins(t: Caller) | StopSeesExit(t: Caller) | StopKills(t: Caller) | StopGivesUp(t: Caller)
    | StopEnds(t: Caller)
    | ConfigSaved | ReloadCalled | ContextCancelled
    | ManageChecks | ConfigLoaded(verdict: Verdict) | ConfigUnreadable | RetryLoad
    | StopRequested | NothingToManage | StartSucceeds | StartFails
    | TakesReload | ParkTimesOut | SeesNoChild | ManageCancelled

  predicate Has(s: State, i: nat) { i < |s.children| }

  predicate Enabled(s: State, e: Event) {
    match e
    case ChildExits(i) => Has(s, i) && s.children[i].alive
    case WaitReturns(i) => Has(s, i) && s.children[i].waiter.InWait? && !s.children[i].alive
    case WaitClears(i) => Has(s, i) && s.children[i].waiter.Reaped?
    case WaitCloses(i) => Has(s, i) && s.children[i].waiter.Cleared?
    case StopBegins(t) => t !in s.stops && (t.ManageLoop? ==> s.manage.StopFirst?)
    case StopSeesExit(t) =>
      t in s.stops && !s.stops[t].Returning? && Has(s, s.stops[t].exited) && s.children[s.stops[t].exited].closes > 0
    case StopKills(t) => t in s.stops && s.stops[t].Grace?
    case StopGivesUp(t) => t in s.stops && s.stops[t].Killing?
    case StopEnds(t) => t in s.stops && s.stops[t].Returning? && (t.ManageLoop? ==> s.manage.InStop?)
    case ConfigSaved | ReloadCalled | ContextCancelled => true
    case ManageChecks => s.manage.Top?
    case ConfigLoaded(_) | ConfigUnreadable => s.manage.Loading?
    case RetryLoad => s.manage.LoadFailed?
    case StopRequested => s.manage == Judged(Disabled)
    case NothingToManage => s.manage == Judged(NotManaged)
    case StartSucceeds | StartFails => s.manage == Judged(StartIt)
    case TakesReload => s.token && (s.manage.Parked? || s.manage.Watching?)
    case ParkTimesOut => s.manage.Parked?
    case SeesNoChild => s.manage.Watching? && s.cmd.None?
    case ManageCancelled => s.cancelled && (s.manage.Parked? || s.manage.Watching?)
  }

  function SetChild(s: State, i: nat, c: Child): State
    requires Has(s, i)
  {
    s.(children := s.children[i := c])
  }

  // ---- the three locked regions, as the class below executes them ----

  function Started(s: State): State {
    if s.cmd.Some? then s
    else s.(cmd := Some(|s.children|), exited := Some(|s.children|),
            children := s.children + [Child(true, InWait, 0, 0, s.loaded)])
  }

  function Snapshot(s: State): Stopping {
    match (s.cmd, s.exited)
    case (Some(c), Some(e)) => Grace(c, e)
    case _ => Returning(None)
  }

  function Step(s: State, e: Event): State
    requires Enabled(s, e)
  {
    match e
    case ChildExits(i) => SetChild(s, i, s.children[i].(alive := false))
    case WaitReturns(i) => SetChild(s, i, s.children[i].(waiter := Reaped, waits := s.children[i].waits + 1))
    case WaitClears(i) => SetChild(s, i, s.children[i].(waiter := Cleared)).(cmd := None, restarts := s.restarts + 1)
    case WaitCloses(i) => SetChild(s, i, s.children[i].(waiter := Closed, closes := s.children[i].closes + 1))
    case StopBegins(t) =>
      s.(wantStop := true, stops := s.stops[t := Snapshot(s)],
         manage := if t.ManageLoop? then InStop(s.manage.thenPark) else s.manage)
    case StopSeesExit(t) => s.(stops := s.stops[t := Returning(Some(s.stops[t].cmd))])
    case StopKills(t) => s.(stops := s.stops[t := Killing(s.stops[t].cmd, s.stops[t].exited)])
    case StopGivesUp(t) => s.(stops := s.stops[t := Returning(None)], gaveUp := s.gaveUp || t.ManageLoop?)
    case StopEnds(t) =>
      s.(wantStop := false, stops := s.stops - {t},
         manage := if !t.ManageLoop? then s.manage else if s.manage.thenPark then Parked else Top)
    case ConfigSaved => s.(disk := s.disk + 1)
    case ReloadCalled => s.(token := true, announced := s.disk)
    case ContextCancelled => s.(cancelled := true)
    case ManageChecks => s.(manage := if s.cancelled then Finished else Loading)
    case ConfigLoaded(v) => s.(loaded := s.disk, manage := Judged(v))
    case ConfigUnreadable => s.(manage := LoadFailed)
    case RetryLoad => s.(manage := Top)
    case StopRequested => s.(manage := StopFirst(true))
    case NothingToManage => s.(manage := Parked)
    case StartSucceeds => Started(s).(manage := Watching)
    case StartFails => s.(manage := if s.cmd.Some? then Watching else Parked)
    case TakesReload => s.(token := false, manage := if s.manage.Parked? then Top else StopFirst(false))
    case ParkTimesOut => s.(manage := Top)
    case SeesNoChild => s.(manage := Top)
    case ManageCancelled => s.(manage := Top)
  }

  // ---- runs ----

  ghost predicate IsRun(run: seq<Event>, states: seq<State>) {
    && |states| == |run| + 1 && states[0] == INIT
    && forall k :: 0 <= k < |run| ==> Enabled(states[k], run[k]) && states[k + 1] == Step(states[k], run[k])
  }

  // ---- invariants ----

  /** One wait per child, one close per `exited` channel, and a child without a completed wait is the current one. */
  ghost predicate ChildrenOk(s: State) {
    && (forall i :: 0 <= i < |s.children| ==>
          var c := s.children[i];
          && (c.alive ==> c.waiter.InWait?)
          && c.waits == (if c.waiter.InWait? then 0 else 1)
          && c.closes == (if c.waiter.Closed? then 1 else 0)
          && (c.waiter.InWait? || c.waiter.Reaped? <==> s.cmd == Some(i)))
    && (s.cmd.Some? ==> s.exited == s.cmd && s.cmd.value == |s.children| - 1)
    && s.restarts == |s.children| - (if s.cmd.Some? then 1 else 0)
  }

  /** A pending stop waits for the channel of the child it found. */
  ghost predicate StopsPending(s: State) {
    forall t :: t in s.stops && !s.stops[t].Returning? ==> s.stops[t].cmd == s.stops[t].exited < |s.children|
  }

  /** A stop returns on `exited` only for a child whose wait goroutine is done. */
  ghost predicate StopsSaw(s: State) {
    forall t :: t in s.stops && s.stops[t].Returning? && s.stops[t].saw.Some? ==>
      Has(s, s.stops[t].saw.value) && s.children[s.stops[t].saw.value].waiter.Closed?
  }

  ghost predicate StopsOk(s: State) { StopsPending(s) && StopsSaw(s) && (ManageLoop in s.stops <==> s.manage.InStop?) }

  /** manageChild is between a wake-up and its next successful LoadConfig. */
  ghost predicate AboutToLoad(s: State) {
    s.manage.Top? || s.manage.Loading? || s.manage.LoadFailed?
    || (s.manage.StopFirst? && !s.manage.thenPark) || (s.manage.InStop? && !s.manage.thenPark)
  }

  ghost predicate ReloadNotLost(s: State) {
    s.loaded < s.announced ==> s.token || AboutToLoad(s) || (s.manage.Finished? && s.cancelled)
  }

  ghost predicate VersionsOk(s: State) {
    s.loaded <= s.disk && s.announced <= s.disk && (s.manage.Finished? ==> s.cancelled)
  }

  /** Unless a stop by the manage loop gave up, a configuration is never loaded over a running child. */
  ghost predicate Fresh(s: State) {
    !s.gaveUp ==>
      && (s.manage.Loading? || s.manage.LoadFailed? || s.manage.Judged? || s.manage.Parked? ==> s.cmd.None?)
      && (s.manage.StopFirst? && s.manage.thenPark ==> s.cmd.None?)
      && (s.manage.Top? ==> s.cmd.None? || s.cancelled)
      && (s.manage.Watching? && s.cmd.Some? ==> Has(s, s.cmd.value) && s.children[s.cmd.value].version == s.loaded)
      && (s.manage.InStop? ==>
            && ManageLoop in s.stops
            && (if s.stops[ManageLoop].Returning? then s.cmd.None? else s.stops[ManageLoop].cmd == |s.children| - 1))
  }

  ghost predicate Inv(s: State) {
    ChildrenOk(s) && StopsOk(s) && VersionsOk(s) && ReloadNotLost(s) && Fresh(s)
  }

  lemma StepKeepsChildren(s: State, e: Event)
    requires ChildrenOk(s) && Enabled(s, e)
    ensures ChildrenOk(Step(s, e))
  {
  }

  lemma StepKeepsStopsPending(s: State, e: Event)
    requires ChildrenOk(s) && StopsPending(s) && Enabled(s, e)
    ensures StopsPending(Step(s, e))
  {
  }

  predicate IsStopEvent(e: Event) { e.StopBegins? || e.StopSeesExit? || e.StopKills? || e.StopGivesUp? || e.StopEnds? }

  lemma StopEventKeepsSaw(s: State, e: Event)
    requires ChildrenOk(s) && StopsPending(s) && StopsSaw(s) && Enabled(s, e) && IsStopEvent(e)
    ensures StopsSaw(Step(s, e))
  {
  }

  lemma OtherEventKeepsSaw(s: State, e: Event)
    requires StopsSaw(s) && Enabled(s, e) && !IsStopEvent(e)
    ensures StopsSaw(Step(s, e))
  {
    OtherEventKeepsStops(s, e);
    forall t | t in s.stops && s.stops[t].Returning? && s.stops[t].saw.Some?
      ensures Persists(s, Step(s, e), s.stops[t].saw.value)
    {
      StepPersists(s, e, s.stops[t].saw.value);
    }
  }

  lemma OtherEventKeepsStops(s: State, e: Event)
    requires Enabled(s, e) && !IsStopEvent(e)
    ensures Step(s, e).stops == s.stops
  {
    match e
    case ChildExits(_) | WaitReturns(_) | WaitClears(_) | WaitCloses(_) =>
    case ConfigSaved | ReloadCalled | ContextCancelled =>
    case _ =>
  }

  lemma StepKeepsStops(s: State, e: Event)
    requires ChildrenOk(s) && StopsOk(s) && Enabled(s, e)
    ensures StopsOk(Step(s, e))
  {
    StepKeepsStopsPending(s, e);
    if IsStopEvent(e) { StopEventKeepsSaw(s, e); } else { OtherEventKeepsSaw(s, e); }
  }

  lemma StepKeepsReload(s: State, e: Event)
    requires VersionsOk(s) && ReloadNotLost(s) && Enabled(s, e)
    ensures VersionsOk(Step(s, e)) && ReloadNotLost(Step(s, e))
  {
  }

  lemma StepKeepsFresh(s: State, e: Event)
    requires ChildrenOk(s) && StopsOk(s) && Fresh(s) && Enabled(s, e)
    ensures ChildrenOk(Step(s, e)) && StopsOk(Step(s, e)) && Fresh(Step(s, e))
  {
    StepKeepsChildren(s, e);
    StepKeepsStops(s, e);
  }

  lemma {:induction false} RunKeepsInv(run: seq<Event>, states: seq<State>, k: nat)
    requires IsRun(run, states) && k <= |run|
    ensures forall j :: 0 <= j <= k ==> Inv(states[j])
  {
    if k == 0 {
    } else {
      RunKeepsInv(run, states, k - 1);
      StepKeepsFresh(states[k - 1], run[k - 1]);
      StepKeepsReload(states[k - 1], run[k - 1]);
    }
  }

  // ---- what holds in every reachable state ----

  /** At most one child is alive, every child is waited for at most once, and no `exited` channel is closed twice;
      a child whose wait goroutine is done has been waited for and closed exactly once. */
  lemma OneLiveChild(run: seq<Event>, states: seq<State>, k: nat)
    requires IsRun(run, states) && k <= |run|
    ensures var s := states[k];
            && (forall i: nat, j: nat ::
                Has(s, i) && Has(s, j) && s.children[i].alive && s.children[j].alive ==> i == j)
            && (forall c :: c in s.children ==> c.waits <= 1 && c.closes <= 1)
            && (forall c :: c in s.children && c.waiter.Closed? ==> c.waits == 1 && c.closes == 1 && !c.alive)
            && (forall i: nat :: Has(s, i) && s.children[i].alive ==> s.cmd == Some(i) && s.exited == Some(i))
  {
    RunKeepsInv(run, states, k);
  }

  /** A child keeps its place and its configuration, never revives, and its closed channel stays closed. */
  ghost predicate Persists(s: State, s': State, i: nat) {
    Has(s, i) ==>
      && Has(s', i) && s'.children[i].version == s.children[i].version
      && (!s.children[i].alive ==> !s'.children[i].alive)
      && (s.children[i].waiter.Closed? ==> s'.children[i].waiter.Closed?)
  }

  lemma StepPersists(s: State, e: Event, i: nat)
    requires Enabled(s, e)
    ensures Persists(s, Step(s, e), i)
  {
  }

  lemma {:induction false} ChainPersists(states: seq<State>, j: nat, k: nat, i: nat)
    requires j <= k < |states|
    requires forall m: nat :: m + 1 < |states| ==> Persists(states[m], states[m + 1], i)
    ensures Persists(states[j], states[k], i)
  {
    if j == k {
    } else {
      ChainPersists(states, j, k - 1, i);
      assert Persists(states[k - 1], states[k - 1 + 1], i);
    }
  }

  lemma RunPersists(run: seq<Event>, states: seq<State>, j: nat, k: nat, i: nat)
    requires IsRun(run, states) && j <= k <= |run|
    ensures Persists(states[j], states[k], i)
  {
    forall m: nat | m + 1 < |states|
      ensures Persists(states[m], states[m + 1], i) { StepPersists(states[m], run[m], i); }
    ChainPersists(states, j, k, i);
  }

  /** A stop that returns because `exited` was closed stopped the child that was current when it began:
      that child is dead, has been waited for, and is no longer current, then and ever after. */
  lemma StopSawItsOwnChildDie(run: seq<Event>, states: seq<State>, j: nat, k: nat, t: Caller)
    requires IsRun(run, states) && j <= k <= |run| && j < |run|
    requires run[j] == StopSeesExit(t) && t in states[j].stops && !states[j].stops[t].Returning?
    ensures var i := states[j].stops[t].cmd;
            && Has(states[j], i) && states[j].children[i].waits == 1
            && Has(states[k], i) && !states[k].children[i].alive && states[k].cmd != Some(i)
  {
    var i := states[j].stops[t].cmd;
    RunKeepsInv(run, states, j);
    RunKeepsInv(run, states, k);
    assert states[j].children[i].closes > 0;
    assert states[j].children[i].waiter.Closed?;
    RunPersists(run, states, j, k, i);
  }

  /** No reload is lost: an announced configuration that has not been loaded still has its token buffered, or
      manageChild is on its way to load it, unless the whole supervisor has been cancelled. */
  lemma NoLostReload(run: seq<Event>, states: seq<State>, k: nat)
    requires IsRun(run, states) && k <= |run| && states[k].loaded < states[k].announced && !states[k].cancelled
    ensures states[k].token || AboutToLoad(states[k])
  {
    RunKeepsInv(run, states, k);
  }

  /** A reload takes effect: while manageChild watches a live child, that child runs the configuration loaded last,
      unless some stop by manageChild has given up on a child that survived SIGKILL. */
  lemma WatchedChildIsCurrent(run: seq<Event>, states: seq<State>, k: nat, i: nat)
    requires IsRun(run, states) && k <= |run| && !states[k].gaveUp
    requires states[k].manage.Watching? && Has(states[k], i) && states[k].children[i].alive
    ensures states[k].children[i].version == states[k].loaded
  {
    RunKeepsInv(run, states, k);
  }

  const SHUTDOWN_RUN := [
    ManageChecks, ConfigLoaded(StartIt), ContextCancelled, StopBegins(Other(0)),
    StopEnds(Other(0)), StartSucceeds, ManageCancelled, ManageChecks]

  const LOADED := INIT.(manage := Judged(StartIt), cancelled := true)
  const ORPHANED := LOADED.(cmd := Some(0), exited := Some(0), children := [Child(true, InWait, 0, 0, 0)])

  const SHUTDOWN_STATES := [
    INIT, INIT.(manage := Loading), INIT.(manage := Judged(StartIt)), LOADED,
    LOADED.(wantStop := true, stops := map[Other(0) := Returning(None)]), LOADED,
    ORPHANED.(manage := Watching), ORPHANED.(manage := Top), ORPHANED.(manage := Finished)]

  lemma ShutdownStep(k: nat)
    requires k < 8
    ensures Enabled(SHUTDOWN_STATES[k], SHUTDOWN_RUN[k])
    ensures SHUTDOWN_STATES[k + 1] == Step(SHUTDOWN_STATES[k], SHUTDOWN_RUN[k])
  {
    if k == 4 {
      assert Step(SHUTDOWN_STATES[4], SHUTDOWN_RUN[4]).stops == map[];
    }
  }

  /** Cancelling does not always stop the child: when the stop issued by Run comes between LoadConfig and the start,
      it finds no child, and manageChild then starts one and finishes, leaving it alive with no stop pending. */
  lemma ShutdownCanLeaveAChild()
    ensures IsRun(SHUTDOWN_RUN, SHUTDOWN_STATES) && |SHUTDOWN_RUN| == 8
    ensures var end := SHUTDOWN_STATES[8];
            && end.cancelled && end.manage.Finished? && end.stops == map[]
            && |end.children| == 1 && end.children[0].alive
  {
    forall k | 0 <= k < 8
      ensures Enabled(SHUTDOWN_STATES[k], SHUTDOWN_RUN[k])
              && SHUTDOWN_STATES[k + 1] == Step(SHUTDOWN_STATES[k], SHUTDOWN_RUN[k])
    {
      ShutdownStep(k);
    }
  }

  // ---- when a shutdown is clean ----

  /** manageChild may still start a child without asking again whether the context is cancelled. */
  ghost predicate MayStart(s: State) { s.manage.Loading? || s.manage == Judged(StartIt) }

  lemma CancelledStep(s: State, e: Event)
    requires StopsOk(s) && s.cancelled && !MayStart(s) && Enabled(s, e)
    ensures Step(s, e).cancelled && !MayStart(Step(s, e)) && |Step(s, e).children| == |s.children|
  {
  }

  /** Once the context is cancelled and manageChild is not between its check and a start, no child is ever started. */
  lemma {:induction false} NoStartAfterCancel(run: seq<Event>, states: seq<State>, j: nat, k: nat)
    requires IsRun(run, states) && j <= k <= |run| && states[j].cancelled && !MayStart(states[j])
    ensures states[k].cancelled && !MayStart(states[k]) && |states[k].children| == |states[j].children|
  {
    if j == k {
    } else {
      NoStartAfterCancel(run, states, j, k - 1);
      RunKeepsInv(run, states, k - 1);
      CancelledStep(states[k - 1], run[k - 1]);
    }
  }

  lemma FinishedStep(s: State, e: Event)
    requires StopsOk(s) && s.manage.Finished? && Enabled(s, e)
    ensures Step(s, e).manage.Finished?
  {
    match e
    case StopBegins(_) | StopEnds(_) =>
    case ChildExits(_) | WaitReturns(_) | WaitClears(_) | WaitCloses(_) =>
    case _ =>
  }

  lemma {:induction false} FinishedStays(run: seq<Event>, states: seq<State>, j: nat, k: nat)
    requires IsRun(run, states) && j <= k <= |run| && states[j].manage.Finished?
    ensures states[k].manage.Finished?
  {
    if j == k {
    } else {
      FinishedStays(run, states, j, k - 1);
      RunKeepsInv(run, states, k - 1);
      FinishedStep(states[k - 1], run[k - 1]);
    }
  }

  /** Once manageChild has returned it stays so, and no child is ever started. */
  lemma NoStartAfterFinish(run: seq<Event>, states: seq<State>, j: nat, k: nat)
    requires IsRun(run, states) && j <= k <= |run| && states[j].manage.Finished?
    ensures states[k].manage.Finished? && |states[k].children| == |states[j].children|
  {
    FinishedStays(run, states, j, k);
    RunKeepsInv(run, states, j);
    NoStartAfterCancel(run, states, j, k);
  }

  /** The stop begun at step `j` found no child, or has ended after seeing the exit of the one it found. */
  ghost predicate StopSucceeded(run: seq<Event>, states: seq<State>, j: nat, t: Caller)
    requires IsRun(run, states)
  {
    && j < |run| && run[j] == StopBegins(t)
    && (states[j].cmd.None? || exists m :: j < m < |run| && SawExit(states[m], run[m], t, states[j].cmd))
  }

  /** The stop `t` ends here, having seen child `cmd` exit. */
  ghost predicate SawExit(s: State, e: Event, t: Caller, cmd: Option<nat>) {
    e == StopEnds(t) && t in s.stops && s.stops[t] == Returning(cmd)
  }

  ghost predicate NoneAlive(s: State) { forall c :: c in s.children ==> !c.alive }

  /** A stop that begins after cancellation, outside that window, and succeeds leaves no child alive, then and ever
      after. */
  lemma LateStopLeavesNoChild(run: seq<Event>, states: seq<State>, j: nat, t: Caller)
    requires IsRun(run, states) && StopSucceeded(run, states, j, t)
    requires states[j].cancelled && !MayStart(states[j])
    ensures NoneAlive(states[|run|])
  {
    var k := |run|;
    RunKeepsInv(run, states, j);
    NoStartAfterCancel(run, states, j, k);
    forall i: nat | Has(states[k], i) ensures !states[k].children[i].alive {
      RunPersists(run, states, j, k, i);
      if states[j].cmd.Some? {
        var m :| j < m < |run| && SawExit(states[m], run[m], t, states[j].cmd);
        RunKeepsInv(run, states, m);
        RunPersists(run, states, m, k, states[j].cmd.value);
      }
    }
  }

  // The other half: from inside the window the stop can succeed and a child be left alive all the same.

  /** `end` is reached from `s` along `es`. */
  ghost predicate Leads(s: State, es: seq<Event>, end: State)
    decreases |es|
  {
    if es == [] then end == s else Enabled(s, es[0]) && Leads(Step(s, es[0]), es[1..], end)
  }

  lemma {:induction false} LeadsConcat(s: State, a: seq<Event>, mid: State, b: seq<Event>, end: State)
    requires Leads(s, a, mid) && Leads(mid, b, end)
    ensures Leads(s, a + b, end)
    decreases |a|
  {
    if a == [] {
      assert a + b == b;
    } else {
      assert (a + b)[1..] == a[1..] + b;
      LeadsConcat(Step(s, a[0]), a[1..], mid, b, end);
    }
  }

  lemma LeadsOne(s: State, e: Event)
    requires Enabled(s, e)
    ensures Leads(s, [e], Step(s, e))
  {
    assert [e][1..] == [];
  }

  /** `longer` continues the states of a run along `es` to `end`. */
  ghost predicate Continues(run: seq<Event>, states: seq<State>, es: seq<Event>, end: State, longer: seq<State>) {
    IsRun(run + es, longer) && states <= longer && longer[|run + es|] == end
  }

  lemma {:induction false} CanContinue(run: seq<Event>, states: seq<State>, es: seq<Event>, end: State)
    requires IsRun(run, states) && Leads(states[|run|], es, end)
    ensures exists longer :: Continues(run, states, es, end, longer)
    decreases |es|
  {
    if es == [] {
      assert run + es == run;
      assert Continues(run, states, es, end, states);
    } else {
      var next := states + [Step(states[|run|], es[0])];
      assert run + [es[0]] + es[1..] == run + es;
      CanContinue(run + [es[0]], next, es[1..], end);
      var longer :| Continues(run + [es[0]], next, es[1..], end, longer);
      assert Continues(run, states, es, end, longer);
    }
  }

  ghost predicate Reaches(s: State, end: State) { exists es :: Leads(s, es, end) }

  lemma ReachesFrom(s: State, e: Event, end: State)
    requires Enabled(s, e) && Reaches(Step(s, e), end)
    ensures Reaches(s, end)
  {
    var es :| Leads(Step(s, e), es, end);
    assert ([e] + es)[1..] == es;
    assert Leads(s, [e] + es, end);
  }

  lemma ReachesItself(s: State)
    ensures Reaches(s, s)
  {
    assert Leads(s, [], s);
  }

  /** The state in which the current child has exited and been waited for, and its channel been closed. */
  function ChildGone(s: State, i: nat): State
    requires Has(s, i)
  {
    s.(cmd := None, restarts := s.restarts + 1,
       children := s.children[i := Child(false, Closed, 1, 1, s.children[i].version)])
  }

  function Ending(s: State, i: nat): Event
    requires Has(s, i)
  {
    if s.children[i].alive then ChildExits(i) else if s.children[i].waiter.InWait? then WaitReturns(i)
    else if s.children[i].waiter.Reaped? then WaitClears(i) else WaitCloses(i)
  }

  function StepsToEnd(s: State, i: nat): nat
    requires Has(s, i)
  {
    if s.children[i].alive then 3 else if s.children[i].waiter.InWait? then 2
    else if s.children[i].waiter.Reaped? then 1 else 0
  }

  /** A current child can exit and be waited for before anything else happens. */
  lemma ChildCanGo(s: State, i: nat)
    requires ChildrenOk(s) && s.cmd == Some(i) && Has(s, i)
    ensures Reaches(s, ChildGone(s, i))
    decreases StepsToEnd(s, i)
  {
    var e := Ending(s, i);
    var next := Step(s, e);
    StepKeepsChildren(s, e);
    if e.WaitClears? {
      assert Step(next, WaitCloses(i)) == ChildGone(s, i);
      ReachesItself(ChildGone(s, i));
      ReachesFrom(next, WaitCloses(i), ChildGone(s, i));
    } else {
      assert ChildGone(next, i) == ChildGone(s, i);
      ChildCanGo(next, i);
    }
    ReachesFrom(s, e, ChildGone(s, i));
  }

  lemma LeadsMore(s: State, es: seq<Event>, mid: State, e: Event)
    requires Leads(s, es, mid) && Enabled(mid, e)
    ensures Leads(s, es + [e], Step(mid, e))
  {
    LeadsOne(mid, e);
    LeadsConcat(s, es, mid, [e], Step(mid, e));
  }

  /** `seen` is about to end the stop `t`, which saw child `cmd` exit, with manageChild and the other stops as in `s`.
      */
  ghost predicate StopSeen(s: State, t: Caller, seen: State) {
    && SawExit(seen, StopEnds(t), t, s.cmd) && seen.cmd.None?
    && seen.manage == s.manage && seen.cancelled == s.cancelled && seen.stops - {t} == s.stops
  }

  lemma PendingStopCanSucceed(s: State, t: Caller, i: nat) returns (es: seq<Event>)
    requires Inv(s) && t.Other? && t !in s.stops && s.cmd == Some(i)
    ensures exists seen :: Leads(Step(s, StopBegins(t)), es, seen) && StopSeen(s, t, seen)
  {
    var begun := Step(s, StopBegins(t));
    var gone := ChildGone(begun, i);
    StepKeepsChildren(s, StopBegins(t));
    ChildCanGo(begun, i);
    es :| Leads(begun, es, gone);
    LeadsMore(begun, es, gone, StopSeesExit(t));
    es := es + [StopSeesExit(t)];
    assert StopSeen(s, t, Step(gone, StopSeesExit(t)));
  }

  /** A stop that begins now can come to its end having seen the current child exit, with manageChild where it was. */
  lemma StopCanSucceed(s: State, t: Caller) returns (es: seq<Event>)
    requires Inv(s) && t.Other? && t !in s.stops
    ensures exists seen :: Leads(Step(s, StopBegins(t)), es, seen) && StopSeen(s, t, seen)
  {
    if s.cmd.None? {
      es := [];
      assert Leads(Step(s, StopBegins(t)), es, Step(s, StopBegins(t)));
    } else {
      es := PendingStopCanSucceed(s, t, s.cmd.value);
    }
  }

  /** manageChild has returned and a child is alive. */
  ghost predicate Orphaned(end: State, stops: map<Caller, Stopping>) {
    end.manage.Finished? && end.stops == stops && !NoneAlive(end)
  }

  /** From inside the window, without a child, a cancelled manageChild can start one and finish. */
  lemma StartsAndFinishes(s: State)
    requires s.cancelled && MayStart(s) && s.cmd.None?
    ensures exists end :: Reaches(s, end) && Orphaned(end, s.stops)
  {
    var judged := s.(loaded := if s.manage.Loading? then s.disk else s.loaded, manage := Judged(StartIt));
    var started := Started(judged).(manage := Watching);
    var end := started.(manage := Finished);
    assert end.children[|s.children|] in end.children;
    ReachesItself(end);
    ReachesFrom(started.(manage := Top), ManageChecks, end);
    ReachesFrom(started, ManageCancelled, end);
    ReachesFrom(judged, StartSucceeds, end);
    if s.manage.Loading? { ReachesFrom(s, ConfigLoaded(StartIt), end); }
    assert Orphaned(end, s.stops);
  }

  /** `later` continues the run with a stop `t` that succeeds. */
  ghost predicate ContinuesWithStop(run: seq<Event>, states: seq<State>, t: Caller, later: seq<Event>,
                                    laterStates: seq<State>)
  {
    && IsRun(later, laterStates) && run <= later && states <= laterStates
    && StopSucceeded(later, laterStates, |run|, t)
  }

  lemma EarlyStopCanLeaveAChild(run: seq<Event>, states: seq<State>, t: Caller)
    requires IsRun(run, states) && states[|run|].cancelled && MayStart(states[|run|])
    requires t.Other? && t !in states[|run|].stops
    ensures exists later, laterStates ::
            ContinuesWithStop(run, states, t, later, laterStates)
            && Orphaned(laterStates[|later|], states[|run|].stops)
  {
    var s := states[|run|];
    RunKeepsInv(run, states, |run|);
    var begun := Step(s, StopBegins(t));
    var es := StopCanSucceed(s, t);
    var seen :| Leads(begun, es, seen) && StopSeen(s, t, seen);
    LeadsOne(s, StopBegins(t));
    LeadsConcat(s, [StopBegins(t)], begun, es, seen);
    var ended := Step(seen, StopEnds(t));
    StartsAndFinishes(ended);
    var end :| Reaches(ended, end) && Orphaned(end, ended.stops);
    var rest :| Leads(ended, rest, end);
    LeadsOne(seen, StopEnds(t));
    LeadsConcat(seen, [StopEnds(t)], ended, rest, end);
    StopsAndGoesOn(run, states, t, es, seen, rest, end);
  }

  lemma StopsAndGoesOn(run: seq<Event>, states: seq<State>, t: Caller, es: seq<Event>, seen: State, rest: seq<Event>,
                       end: State)
    requires IsRun(run, states) && Leads(states[|run|], [StopBegins(t)] + es, seen)
    requires SawExit(seen, StopEnds(t), t, states[|run|].cmd) && Leads(seen, [StopEnds(t)] + rest, end)
    ensures exists later, laterStates ::
            ContinuesWithStop(run, states, t, later, laterStates) && laterStates[|later|] == end
  {
    var first, second := [StopBegins(t)] + es, [StopEnds(t)] + rest;
    CanContinue(run, states, first, seen);
    var middle :| Continues(run, states, first, seen, middle);
    CanContinue(run + first, middle, second, end);
    var laterStates :| Continues(run + first, middle, second, end, laterStates);
    var later, m := run + first + second, |run + first|;
    assert later[|run|] == StopBegins(t) && later[m] == StopEnds(t) && laterStates[m] == seen;
    assert SawExit(laterStates[m], later[m], t, states[|run|].cmd);
    assert ContinuesWithStop(run, states, t, later, laterStates);
  }

  /** In every reachable state after cancellation, whether or not some stop has given up before: a stop that begins now
      and succeeds is sure to leave no child alive exactly when manageChild is outside its window. */
  lemma ShutdownIsCleanIff(run: seq<Event>, states: seq<State>, t: Caller)
    requires IsRun(run, states) && states[|run|].cancelled && t.Other? && t !in states[|run|].stops
    ensures (forall later, laterStates ::
            ContinuesWithStop(run, states, t, later, laterStates) ==> NoneAlive(laterStates[|later|]))
            <==> !MayStart(states[|run|])
  {
    if MayStart(states[|run|]) {
      EarlyStopCanLeaveAChild(run, states, t);
    } else {
      forall later, laterStates | ContinuesWithStop(run, states, t, later, laterStates)
        ensures NoneAlive(laterStates[|later|])
      {
        LateStopLeavesNoChild(later, laterStates, |run|, t);
      }
    }
  }

  // ---- the loop keeps a child up ----

  /** The state with a new child, current and watched, that runs the configuration on disk. */
  function WithNewChild(s: State): State {
    s.(children := s.children + [Child(true, InWait, 0, 0, s.disk)], cmd := Some(|s.children|),
       exited := Some(|s.children|), loaded := s.disk, manage := Watching)
  }

  /** A crash is made good at the next look: from watching without a child, the loop's own next steps replace it, with
      no backoff in between, by one that runs the configuration on disk. */
  lemma CrashedChildIsReplaced(s: State)
    requires s.manage.Watching? && s.cmd.None? && !s.cancelled
    ensures Leads(s, [SeesNoChild, ManageChecks, ConfigLoaded(StartIt), StartSucceeds], WithNewChild(s))
  {
    var top := s.(manage := Top);
    TopStarts(top);
    assert [SeesNoChild, ManageChecks, ConfigLoaded(StartIt), StartSucceeds][1..]
      == [ManageChecks, ConfigLoaded(StartIt), StartSucceeds];
    assert Step(s, SeesNoChild) == top && WithNewChild(top) == WithNewChild(s);
  }

  lemma TopStarts(s: State)
    requires s.manage.Top? && s.cmd.None? && !s.cancelled
    ensures Leads(s, [ManageChecks, ConfigLoaded(StartIt), StartSucceeds], WithNewChild(s))
  {
    var loading := s.(manage := Loading);
    var judged := s.(loaded := s.disk, manage := Judged(StartIt));
    assert Step(s, ManageChecks) == loading && Step(loading, ConfigLoaded(StartIt)) == judged
      && Step(judged, StartSucceeds) == WithNewChild(s);
    LeadsOne(judged, StartSucceeds);
    assert [ManageChecks, ConfigLoaded(StartIt), StartSucceeds][1..] == [ConfigLoaded(StartIt), StartSucceeds];
    assert [ConfigLoaded(StartIt), StartSucceeds][1..] == [StartSucceeds];
  }

  /** A step of manageChild towards the top of its loop, when there is no child. */
  function TowardsTop(s: State): Event
    requires s.manage.InStop? ==> ManageLoop in s.stops
  {
    match s.manage
    case LoadFailed => RetryLoad
    case Loading => ConfigUnreadable
    case Judged(Disabled) => StopRequested
    case Judged(NotManaged) => NothingToManage
    case Judged(StartIt) => StartFails
    case StopFirst(_) => StopBegins(ManageLoop)
    case InStop(_) =>
      (match s.stops[ManageLoop]
       case Grace(_, _) => StopKills(ManageLoop)
       case Killing(_, _) => StopGivesUp(ManageLoop)
       case Returning(_) => StopEnds(ManageLoop))
    case Watching => SeesNoChild
    case _ => ParkTimesOut
  }

  function StepsToTop(s: State): nat
    requires s.manage.InStop? ==> ManageLoop in s.stops
  {
    match s.manage
    case Judged(v) => if v.Disabled? then 6 else 2
    case StopFirst(_) => 5
    case InStop(_) => if s.stops[ManageLoop].Returning? then 2 else if s.stops[ManageLoop].Killing? then 3 else 4
    case Loading => 2
    case LoadFailed | Parked | Watching => 1
    case Top | Finished => 0
  }

  ghost predicate Idle(s: State) {
    ChildrenOk(s) && StopsOk(s) && s.cmd.None? && !s.manage.Finished?
  }

  lemma TowardsTopIsEnabled(s: State)
    requires Idle(s) && !s.manage.Top?
    ensures Enabled(s, TowardsTop(s))
  {
  }

  /** No child is started, none exits, and the loop is nearer to its top. */
  ghost predicate Nearer(s: State, next: State) {
    && next.cmd.None? && !next.manage.Finished? && (next.manage.InStop? ==> ManageLoop in next.stops)
    && (s.manage.InStop? ==> ManageLoop in s.stops) && StepsToTop(next) < StepsToTop(s)
    && next.children == s.children && next.disk == s.disk && next.cancelled == s.cancelled
  }

  lemma StopStepIsNearer(s: State)
    requires Idle(s) && (s.manage.StopFirst? || s.manage.InStop?) && Enabled(s, TowardsTop(s))
    ensures Nearer(s, Step(s, TowardsTop(s)))
  {
  }

  lemma OtherStepIsNearer(s: State)
    requires Idle(s) && !s.manage.Top? && !s.manage.StopFirst? && !s.manage.InStop? && Enabled(s, TowardsTop(s))
    ensures Nearer(s, Step(s, TowardsTop(s)))
  {
  }

  lemma TowardsTopStep(s: State)
    requires Idle(s) && !s.manage.Top?
    ensures Enabled(s, TowardsTop(s))
    ensures Idle(Step(s, TowardsTop(s))) && Nearer(s, Step(s, TowardsTop(s)))
  {
    TowardsTopIsEnabled(s);
    if s.manage.StopFirst? || s.manage.InStop? { StopStepIsNearer(s); } else { OtherStepIsNearer(s); }
    StepKeepsChildren(s, TowardsTop(s));
    StepKeepsStops(s, TowardsTop(s));
  }

  /** Some continuation starts child `n` with configuration `version`: alive, and current. */
  ghost predicate CanStart(s: State, n: nat, version: nat) {
    exists end :: Reaches(s, end) && end.cmd == Some(n) && |end.children| == n + 1
      && end.children[n] == Child(true, InWait, 0, 0, version)
  }

  lemma CanStartFrom(s: State, mid: State, n: nat, version: nat)
    requires Reaches(s, mid) && CanStart(mid, n, version)
    ensures CanStart(s, n, version)
  {
    var end :| Reaches(mid, end) && end.cmd == Some(n) && |end.children| == n + 1
      && end.children[n] == Child(true, InWait, 0, 0, version);
    var a :| Leads(s, a, mid);
    var b :| Leads(mid, b, end);
    LeadsConcat(s, a, mid, b, end);
  }

  lemma ReachesNext(s: State, e: Event)
    requires Enabled(s, e)
    ensures Reaches(s, Step(s, e))
  {
    LeadsOne(s, e);
  }

  lemma IdleCanStart(s: State)
    requires Idle(s) && !s.cancelled
    ensures CanStart(s, |s.children|, s.disk)
    decreases StepsToTop(s)
  {
    if s.manage.Top? {
      TopStarts(s);
      assert Reaches(s, WithNewChild(s));
    } else {
      var e := TowardsTop(s);
      TowardsTopStep(s);
      IdleCanStart(Step(s, e));
      ReachesNext(s, e);
      CanStartFrom(s, Step(s, e), |s.children|, s.disk);
    }
  }

  lemma GoneIsIdle(s: State, i: nat)
    requires Inv(s) && s.cmd == Some(i) && !s.manage.Finished?
    ensures Idle(ChildGone(s, i))
  {
    var gone := ChildGone(s, i);
    forall t | t in gone.stops && gone.stops[t].Returning? && gone.stops[t].saw.Some?
      ensures gone.children[gone.stops[t].saw.value].waiter.Closed?
    {
    }
  }

  /** From every reachable state before cancellation some continuation starts another child: no crash, failed start,
      stop that gives up or unreadable configuration keeps the loop from doing so. */
  lemma AnotherStartIsPossible(run: seq<Event>, states: seq<State>, k: nat)
    requires IsRun(run, states) && k <= |run| && !states[k].cancelled
    ensures CanStart(states[k], |states[k].children|, states[k].disk)
  {
    var s := states[k];
    RunKeepsInv(run, states, k);
    if s.cmd.Some? {
      GoneIsIdle(s, s.cmd.value);
      ChildCanGo(s, s.cmd.value);
      IdleCanStart(ChildGone(s, s.cmd.value));
      CanStartFrom(s, ChildGone(s, s.cmd.value), |s.children|, s.disk);
    } else {
      IdleCanStart(s);
    }
  }

  // ---- the loop stops a child before it goes on ----

  /** The loop owes a stop: the configuration disables the relay, or a reload was taken while a child was watched. */
  ghost predicate OwesStop(s: State) { s.manage == Judged(Disabled) || s.manage.StopFirst? }

  lemma OwingStep(s: State, e: Event)
    requires Enabled(s, e) && OwesStop(s) && e != StopBegins(ManageLoop)
    requires StopsOk(s)
    ensures OwesStop(Step(s, e))
  {
  }

  lemma OwesFrom(s: State, e: Event)
    requires Enabled(s, e) && (e == ConfigLoaded(Disabled) || (e == TakesReload && s.manage.Watching?))
    ensures OwesStop(Step(s, e))
  {
  }

  /** After loading a configuration that disables the relay, and after taking a reload while it watches, the loop does
      nothing before it has begun a stop. */
  lemma {:induction false} StopComesFirst(run: seq<Event>, states: seq<State>, j: nat, k: nat)
    requires IsRun(run, states) && j < k <= |run|
    requires run[j] == ConfigLoaded(Disabled) || (run[j] == TakesReload && states[j].manage.Watching?)
    requires forall m :: j < m < k ==> run[m] != StopBegins(ManageLoop)
    ensures OwesStop(states[k])
  {
    if k == j + 1 {
      OwesFrom(states[j], run[j]);
    } else {
      StopComesFirst(run, states, j, k - 1);
      StillOwes(run, states, k - 1);
    }
  }

  lemma StillOwes(run: seq<Event>, states: seq<State>, k: nat)
    requires IsRun(run, states) && k < |run| && OwesStop(states[k]) && run[k] != StopBegins(ManageLoop)
    ensures OwesStop(states[k + 1])
  {
    RunKeepsInv(run, states, k);
    OwingStep(states[k], run[k]);
  }

  // ---- the fields under the mutex ----

  class Supervisor {
    var cmd: Option<nat>
    var exited: Option<nat>
    var wantStop: bool
    var restarts: nat
    var token: bool
    var children: seq<Child>

    ghost predicate Shows(s: State)
      reads this
    {
      cmd == s.cmd && exited == s.exited && wantStop == s.wantStop && restarts == s.restarts
      && token == s.token && children == s.children
    }

    constructor ()
      ensures Shows(INIT)
    {
      cmd, exited, wantStop, restarts, token, children := None, None, false, 0, false, [];
    }

    /** startChild: a no-op when a child is current, whatever the new configuration says. */
    method StartChild(version: nat, startOk: bool, ghost s: State) returns (ok: bool)
      requires Shows(s) && s.manage == Judged(StartIt) && version == s.loaded
      modifies this
      ensures ok == (startOk || s.cmd.Some?)
      ensures Shows(Step(s, if startOk then StartSucceeds else StartFails))
    {
      if cmd.Some? { return true; }
      if !startOk { return false; }
      var id := |children|;
      children := children + [Child(true, InWait, 0, 0, version)];
      cmd := Some(id);
      exited := Some(id);
      return true;
    }

    /** First locked region of stopChild. */
    method StopBegin(ghost s: State, ghost t: Caller) returns (stop: Stopping)
      requires Shows(s) && Enabled(s, StopBegins(t))
      modifies this`wantStop
      ensures Shows(Step(s, StopBegins(t))) && Step(s, StopBegins(t)).stops[t] == stop
    {
      wantStop := true;
      if cmd.None? || exited.None? { return Returning(None); }
      return Grace(cmd.value, exited.value);
    }

    /** Deferred locked region of stopChild. */
    method StopEnd(ghost s: State, ghost t: Caller)
      requires Shows(s) && Enabled(s, StopEnds(t))
      modifies this`wantStop
      ensures Shows(Step(s, StopEnds(t)))
    {
      wantStop := false;
    }

    /** Locked region of the wait goroutine: it clears `cmd` without looking at it. */
    method ChildReaped(i: nat, ghost s: State) returns (wasWanted: bool)
      requires Shows(s) && Enabled(s, WaitClears(i))
      modifies this
      ensures Shows(Step(s, WaitClears(i))) && wasWanted == s.wantStop
    {
      wasWanted := wantStop;
      cmd := None;
      restarts := restarts + 1;
      children := children[i := children[i].(waiter := Cleared)];
    }

    /** Non-blocking send on a channel of capacity one. */
    method Reload(ghost s: State)
      requires Shows(s)
      modifies this`token
      ensures Shows(Step(s, ReloadCalled))
    {
      if !token { token := true; }
    }
  }
}
