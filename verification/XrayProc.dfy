/**
 The xray process supervisor as interleaved atomic steps. Here the Run loop owns the child: it alone starts, waits
 (through one goroutine per child) and clears `cmd`; Restart callers only signal and watch.
 */
module XrayProc {
  import opened Text

  /** `waiters` counts goroutines spawned to Wait on the child, `waits` the completed Wait calls;
      a completed Wait puts one value in the child's buffered `exit` channel. */
  datatype Child = Child(alive: bool, waiters: nat, waits: nat, exitBuffered: bool)

  datatype Loop =
    | Top | Starting | Spawning | Running(child: nat) | Collected(child: nat) | Cleared(wanted: bool) | Sleeping
    | Terminating(child: nat, killed: bool) | Finished(sawExit: bool)

  datatype State = State(
    cmd: Option<nat>, restartCount: nat, stopping: bool,
    children: seq<Child>, loop: Loop, backoff: nat,
    restarters: map<nat, nat>,   // Restart callers past their locked region, with the child they saw
    cancelled: bool)

  const INIT := State(None, 0, false, [], Top, 1, map[], false)

  function NextBackoff(cur: nat): nat { if 2 * cur > 60 then 60 else 2 * cur }

  datatype Event =
    | ChildExits(i: nat) | WaitReturns(i: nat)
    | ContextCancelled
    | LoopChecks | StartSucceeds | StartFails | SpawnsWaiter | ReceivesExit | ClearsCommand | Decides | SleepEnds
    | SeesCancel | TerminateKills | TerminateSeesExit | TerminateGivesUp
    | RestartBegins(r: nat) | RestartSeesGone(r: nat) | RestartLeaves(r: nat)

  predicate Has(s: State, i: nat) { i < |s.children| }

  predicate Enabled(s: State, e: Event) {
    match e
    case ChildExits(i) => Has(s, i) && s.children[i].alive
    case WaitReturns(i) => Has(s, i) && !s.children[i].alive && s.children[i].waits < s.children[i].waiters
    case ContextCancelled => true
    case LoopChecks => s.loop.Top?
    case StartSucceeds => s.loop.Starting? && s.cmd.None?
    case StartFails => s.loop.Starting?
    case SpawnsWaiter => s.loop.Spawning? && s.cmd.Some? && Has(s, s.cmd.value)
    case ReceivesExit => s.loop.Running? && Has(s, s.loop.child) && s.children[s.loop.child].exitBuffered
    case ClearsCommand => s.loop.Collected?
    case Decides => s.loop.Cleared?
    case SleepEnds => s.loop.Sleeping?
    case SeesCancel => s.cancelled && (s.loop.Running? || s.loop.Sleeping?)
    case TerminateKills => s.loop.Terminating? && !s.loop.killed
    case TerminateSeesExit => s.loop.Terminating? && Has(s, s.loop.child) && s.children[s.loop.child].exitBuffered
    case TerminateGivesUp => s.loop.Terminating? && s.loop.killed
    case RestartBegins(r) => r !in s.restarters
    case RestartSeesGone(r) => r in s.restarters && s.cmd != Some(s.restarters[r])
    case RestartLeaves(r) => r in s.restarters
  }

  function SetChild(s: State, i: nat, c: Child): State
    requires Has(s, i)
  {
    s.(children := s.children[i := c])
  }

  function Step(s: State, e: Event): State
    requires Enabled(s, e)
  {
    match e
    case ChildExits(i) => SetChild(s, i, s.children[i].(alive := false))
    case WaitReturns(i) => SetChild(s, i, s.children[i].(waits := s.children[i].waits + 1, exitBuffered := true))
    case ContextCancelled => s.(cancelled := true)
    case LoopChecks => s.(loop := if s.cancelled then Finished(true) else Starting)
    case StartSucceeds =>
      s.(cmd := Some(|s.children|), restartCount := s.restartCount + 1,
         children := s.children + [Child(true, 0, 0, false)], loop := Spawning)
    case StartFails => s.(loop := Sleeping)
    case SpawnsWaiter =>
      var i := s.cmd.value;
      SetChild(s, i, s.children[i].(waiters := s.children[i].waiters + 1)).(loop := Running(i))
    case ReceivesExit =>
      var i := s.loop.child;
      SetChild(s, i, s.children[i].(exitBuffered := false)).(loop := Collected(i))
    case ClearsCommand => s.(stopping := false, cmd := None, loop := Cleared(s.stopping))
    case Decides =>
      s.(backoff := if !s.cancelled && s.loop.wanted then 1 else s.backoff,
         loop := if s.cancelled then Finished(true) else if s.loop.wanted then Top else Sleeping)
    case SleepEnds => s.(backoff := NextBackoff(s.backoff), loop := Top)
    case SeesCancel => s.(loop := if s.loop.Running? then Terminating(s.loop.child, false) else Finished(true))
    case TerminateKills => s.(loop := Terminating(s.loop.child, true))
    case TerminateSeesExit =>
      var i := s.loop.child;
      SetChild(s, i, s.children[i].(exitBuffered := false)).(loop := Finished(true))
    case TerminateGivesUp => s.(loop := Finished(false))
    case RestartBegins(r) =>
      s.(stopping := true,
         restarters := if s.cmd.Some? then s.restarters[r := s.cmd.value] else s.restarters)
    case RestartSeesGone(r) => s.(restarters := s.restarters - {r})
    case RestartLeaves(r) => s.(restarters := s.restarters - {r})
  }

  ghost predicate IsRun(run: seq<Event>, states: seq<State>) {
    && |states| == |run| + 1 && states[0] == INIT
    && forall k :: 0 <= k < |run| ==> Enabled(states[k], run[k]) && states[k + 1] == Step(states[k], run[k])
  }

  // ---- invariants ----

  ghost predicate Owned(s: State) {
    && s.restartCount == |s.children|
    && (s.cmd.Some? ==> s.cmd.value == |s.children| - 1)
    && (s.loop.Top? || s.loop.Starting? || s.loop.Cleared? || s.loop.Sleeping? ==> s.cmd.None?)
    && (s.loop.Spawning? ==> s.cmd.Some?)
    && (s.loop.Running? || s.loop.Collected? || s.loop.Terminating? ==> s.cmd == Some(s.loop.child))
    && (s.loop.Terminating? || s.loop.Finished? ==> s.cancelled)
  }

  /** The child is past its wait and nothing is left in its channel. */
  ghost predicate WaitedFor(c: Child) { c == Child(false, 1, 1, false) }

  ghost predicate OneWait(s: State) {
    forall i :: 0 <= i < |s.children| ==>
      var c := s.children[i];
      if s.loop.Spawning? && s.cmd == Some(i) then c.waiters == 0 && c.waits == 0 && !c.exitBuffered
      else
        && c.waiters == 1 && c.waits <= 1 && (c.waits == 1 ==> !c.alive)
        && (c.exitBuffered ==> c.waits == 1)
        && (s.loop == Running(i) || (s.loop.Terminating? && s.loop.child == i) ==> c.exitBuffered == (c.waits == 1))
        && ((s.cmd != Some(i)) || s.loop == Collected(i) || s.loop == Finished(true) ==> WaitedFor(c))
  }

  ghost predicate RestartersOk(s: State) {
    && (forall r :: r in s.restarters ==> s.restarters[r] < |s.children|)
    && 1 <= s.backoff <= 60
  }

  ghost predicate Inv(s: State) { Owned(s) && OneWait(s) && RestartersOk(s) }

  lemma StepKeepsOwned(s: State, e: Event)
    requires Owned(s) && Enabled(s, e)
    ensures Owned(Step(s, e))
  {
  }

  lemma StepKeepsOneWait(s: State, e: Event)
    requires Owned(s) && OneWait(s) && Enabled(s, e)
    ensures OneWait(Step(s, e))
  {
  }

  lemma StepKeepsRestarters(s: State, e: Event)
    requires Owned(s) && RestartersOk(s) && Enabled(s, e)
    ensures RestartersOk(Step(s, e))
  {
  }

  lemma StepKeepsInv(s: State, e: Event)
    requires Inv(s) && Enabled(s, e)
    ensures Inv(Step(s, e))
  {
    StepKeepsOwned(s, e);
    StepKeepsOneWait(s, e);
    StepKeepsRestarters(s, e);
  }

  lemma {:induction false} RunKeepsInv(run: seq<Event>, states: seq<State>, k: nat)
    requires IsRun(run, states) && k <= |run|
    ensures forall j :: 0 <= j <= k ==> Inv(states[j])
  {
    if k == 0 {
    } else {
      RunKeepsInv(run, states, k - 1);
      StepKeepsInv(states[k - 1], run[k - 1]);
    }
  }

  // ---- what holds in every reachable state ----

  /** At most one child is alive, each is waited for at most once, and `start` never meets a current command. */
  lemma OneLiveChild(run: seq<Event>, states: seq<State>, k: nat)
    requires IsRun(run, states) && k <= |run|
    ensures var s := states[k];
            && (forall i: nat, j: nat ::
                Has(s, i) && Has(s, j) && s.children[i].alive && s.children[j].alive ==> i == j)
            && (forall c :: c in s.children ==> c.waits <= c.waiters <= 1)
            && (s.loop.Starting? ==> s.cmd.None?)
            && s.restartCount == |s.children| && 1 <= s.backoff <= 60
  {
    RunKeepsInv(run, states, k);
  }

  /** When Run returns after an exit was received, or without a child, every child it ever started is dead and was
      waited for exactly once; when it gives up after SIGKILL this can fail for the last child only. */
  lemma RunReturnsClean(run: seq<Event>, states: seq<State>, k: nat)
    requires IsRun(run, states) && k <= |run| && states[k].loop.Finished?
    ensures forall i :: 0 <= i < |states[k].children| && (states[k].loop.sawExit || i < |states[k].children| - 1)
              ==> WaitedFor(states[k].children[i])
  {
    RunKeepsInv(run, states, k);
  }

  lemma StepKeepsDead(s: State, e: Event, i: nat)
    requires Enabled(s, e) && Has(s, i) && !s.children[i].alive
    ensures Has(Step(s, e), i) && !Step(s, e).children[i].alive
  {
  }

  lemma {:induction false} DeadStayDead(run: seq<Event>, states: seq<State>, j: nat, k: nat, i: nat)
    requires IsRun(run, states) && j <= k <= |run| && Has(states[j], i) && !states[j].children[i].alive
    ensures Has(states[k], i) && !states[k].children[i].alive
  {
    if j == k {
    } else {
      DeadStayDead(run, states, j, k - 1, i);
      StepKeepsDead(states[k - 1], run[k - 1], i);
    }
  }

  /** A Restart that returns because `cmd` moved on has outlived the child it signalled: that child is dead and
      waited for, though the caller never called Wait. */
  lemma RestartSawItsChildDie(run: seq<Event>, states: seq<State>, j: nat, k: nat, r: nat)
    requires IsRun(run, states) && j <= k <= |run| && j < |run|
    requires run[j] == RestartSeesGone(r) && r in states[j].restarters
    ensures var i := states[j].restarters[r];
            && Has(states[j], i) && WaitedFor(states[j].children[i])
            && Has(states[k], i) && !states[k].children[i].alive
  {
    RunKeepsInv(run, states, j);
    assert Enabled(states[j], run[j]);
    DeadStayDead(run, states, j, k, states[j].restarters[r]);
  }

  lemma {:induction false} ClearedStays(run: seq<Event>, states: seq<State>, j: nat, k: nat)
    requires IsRun(run, states) && j < k <= |run| && run[j] == ClearsCommand
    requires forall m :: j < m < k ==> run[m] != Decides
    ensures states[k].loop == Cleared(states[j].stopping)
  {
    assert Enabled(states[k - 1], run[k - 1]);
    if j + 1 == k {
    } else {
      ClearedStays(run, states, j, k - 1);
    }
  }

  /** Step `p` is the first after the exit that was cleared last before step `j`, or the first of the run. */
  ghost predicate SinceClear(run: seq<Event>, p: nat, j: nat) {
    && p <= j <= |run|
    && (p == 0 || run[p - 1] == ClearsCommand)
    && forall m :: p <= m < j ==> run[m] != ClearsCommand
  }

  ghost predicate RestartCalled(run: seq<Event>, p: nat, j: nat)
    requires j <= |run|
  {
    exists m :: p <= m < j && run[m].RestartBegins?
  }

  /** The flag is up exactly when some Restart has been called since the last exit was cleared. */
  lemma {:induction false} StoppingIff(run: seq<Event>, states: seq<State>, p: nat, j: nat)
    requires IsRun(run, states) && SinceClear(run, p, j)
    ensures states[j].stopping <==> RestartCalled(run, p, j)
  {
    if j == p {
      if p > 0 { assert Enabled(states[p - 1], run[p - 1]); }
    } else {
      StoppingIff(run, states, p, j - 1);
      assert Enabled(states[j - 1], run[j - 1]);
      OneMoreStep(run, p, j);
    }
  }

  lemma OneMoreStep(run: seq<Event>, p: nat, j: nat)
    requires p < j <= |run|
    ensures RestartCalled(run, p, j) <==> RestartCalled(run, p, j - 1) || run[j - 1].RestartBegins?
  {
  }

  /** After an exit the loop respawns at once, with the backoff reset, if and only if some Restart was called between
      the previous exit and this one; otherwise it sleeps first. `p` starts the interval, `j` is the step that clears
      the command, `k` the decision. */
  lemma ImmediateRespawnIff(run: seq<Event>, states: seq<State>, p: nat, j: nat, k: nat)
    requires IsRun(run, states) && SinceClear(run, p, j) && j < k < |run|
    requires run[j] == ClearsCommand && run[k] == Decides && !states[k].cancelled
    requires forall m :: j < m < k ==> run[m] != Decides
    ensures states[k + 1].loop == if RestartCalled(run, p, j) then Top else Sleeping
    ensures states[k + 1].backoff == if RestartCalled(run, p, j) then 1 else states[k].backoff
  {
    StoppingIff(run, states, p, j);
    ClearedStays(run, states, j, k);
  }

  // ---- Run keeps the process up ----

  /** Run returns only after cancellation. */
  lemma RunReturnsOnlyWhenCancelled(run: seq<Event>, states: seq<State>, k: nat)
    requires IsRun(run, states) && k <= |run|
    ensures states[k].loop.Finished? ==> states[k].cancelled
  {
    RunKeepsInv(run, states, k);
  }

  /** `end` is reached from `s` along `es`. */
  ghost predicate Leads(s: State, es: seq<Event>, end: State)
    decreases |es|
  {
    if es == [] then end == s else Enabled(s, es[0]) && Leads(Step(s, es[0]), es[1..], end)
  }

  /** Some continuation starts child `n`: alive, and current. */
  ghost predicate CanStart(s: State, n: nat) {
    exists es, end :: Leads(s, es, end) && end.cmd == Some(n) && |end.children| == n + 1 && end.children[n].alive
  }

  lemma CanStartFrom(s: State, e: Event, n: nat)
    requires Enabled(s, e) && CanStart(Step(s, e), n)
    ensures CanStart(s, n)
  {
    var es, end :|
      Leads(Step(s, e), es, end) && end.cmd == Some(n) && |end.children| == n + 1 && end.children[n].alive;
    assert ([e] + es)[1..] == es;
    assert Leads(s, [e] + es, end);
  }

  lemma FromTop(s: State)
    requires Inv(s) && !s.cancelled && (s.loop.Top? || s.loop.Starting?)
    ensures CanStart(s, |s.children|)
    decreases s.loop.Top?
  {
    if s.loop.Top? {
      FromTop(Step(s, LoopChecks));
      CanStartFrom(s, LoopChecks, |s.children|);
    } else {
      var end := Step(s, StartSucceeds);
      assert Leads(end, [], end);
      CanStartFrom(s, StartSucceeds, |s.children|);
    }
  }

  lemma FromCleared(s: State)
    requires Inv(s) && !s.cancelled && (s.loop.Cleared? || s.loop.Sleeping?)
    ensures CanStart(s, |s.children|)
    decreases s.loop.Cleared?
  {
    var e := if s.loop.Cleared? then Decides else SleepEnds;
    StepKeepsInv(s, e);
    if Step(s, e).loop.Sleeping? { FromCleared(Step(s, e)); } else { FromTop(Step(s, e)); }
    CanStartFrom(s, e, |s.children|);
  }

  /** One step nearer to the exit of the running child being received. */
  function ExitStep(s: State): Event
    requires s.loop.Running? && Has(s, s.loop.child)
  {
    var i := s.loop.child;
    if s.children[i].alive then ChildExits(i) else if s.children[i].waits == 0 then WaitReturns(i) else ReceivesExit
  }

  function StepsToExit(s: State): nat
    requires s.loop.Running? && Has(s, s.loop.child)
  {
    if s.children[s.loop.child].alive then 2 else if s.children[s.loop.child].waits == 0 then 1 else 0
  }

  lemma FromRunning(s: State)
    requires Inv(s) && !s.cancelled && s.loop.Running?
    ensures CanStart(s, |s.children|)
    decreases StepsToExit(s)
  {
    var e := ExitStep(s);
    var next := Step(s, e);
    StepKeepsInv(s, e);
    if e.ReceivesExit? {
      StepKeepsInv(next, ClearsCommand);
      FromCleared(Step(next, ClearsCommand));
      CanStartFrom(next, ClearsCommand, |s.children|);
    } else {
      FromRunning(next);
    }
    CanStartFrom(s, e, |s.children|);
  }

  /** From every reachable state before cancellation some continuation starts another child: no crash, failed start or
      restart stops Run from keeping the process up. */
  lemma AnotherStartIsPossible(run: seq<Event>, states: seq<State>, k: nat)
    requires IsRun(run, states) && k <= |run| && !states[k].cancelled
    ensures CanStart(states[k], |states[k].children|)
  {
    var s := states[k];
    RunKeepsInv(run, states, k);
    if s.loop.Spawning? || s.loop.Collected? {
      var e := if s.loop.Spawning? then SpawnsWaiter else ClearsCommand;
      StepKeepsInv(s, e);
      if s.loop.Spawning? { FromRunning(Step(s, e)); } else { FromCleared(Step(s, e)); }
      CanStartFrom(s, e, |s.children|);
    } else if s.loop.Running? {
      FromRunning(s);
    } else if s.loop.Cleared? || s.loop.Sleeping? {
      FromCleared(s);
    } else {
      FromTop(s);
    }
  }

  /** Once cancelled, Run starts no child, unless it was already past its check of the context. */
  lemma {:induction false} NoStartAfterCancel(run: seq<Event>, states: seq<State>, j: nat, k: nat)
    requires IsRun(run, states) && j <= k <= |run| && states[j].cancelled && !states[j].loop.Starting?
    ensures states[k].cancelled && !states[k].loop.Starting? && |states[k].children| == |states[j].children|
  {
    if j == k {
    } else {
      NoStartAfterCancel(run, states, j, k - 1);
      CancelledStep(states[k - 1], run[k - 1]);
    }
  }

  lemma CancelledStep(s: State, e: Event)
    requires Enabled(s, e) && s.cancelled && !s.loop.Starting?
    ensures var after := Step(s, e);
            after.cancelled && !after.loop.Starting? && |after.children| == |s.children|
  {
  }

  // ---- the pace of restarts ----

  function Pow2(n: nat): nat { if n == 0 then 1 else 2 * Pow2(n - 1) }

  /** Step `k` answers a Restart: the loop goes on at once. */
  ghost predicate Answers(run: seq<Event>, states: seq<State>, k: nat)
    requires IsRun(run, states) && k < |run|
  {
    run[k] == Decides && states[k + 1].loop.Top?
  }

  /** The sleeps that have ended since the last answered Restart. */
  ghost function SleepsAt(run: seq<Event>, states: seq<State>, k: nat): nat
    requires IsRun(run, states) && k <= |run|
  {
    if k == 0 || Answers(run, states, k - 1) then 0
    else SleepsAt(run, states, k - 1) + if run[k - 1] == SleepEnds then 1 else 0
  }

  /** After `n` sleeps in a row, each following a crash or a failed start, the next one lasts min(60, 2^n) seconds. Only
      an answered Restart resets this; a child that has run for long does not. */
  lemma {:induction false} BackoffIs(run: seq<Event>, states: seq<State>, k: nat)
    requires IsRun(run, states) && k <= |run|
    ensures var wait := Pow2(SleepsAt(run, states, k)); states[k].backoff == if wait < 60 then wait else 60
  {
    if k == 0 {
    } else {
      BackoffIs(run, states, k - 1);
      BackoffStep(states[k - 1], run[k - 1]);
    }
  }

  lemma BackoffStep(s: State, e: Event)
    requires Enabled(s, e)
    ensures Step(s, e).backoff ==
              if e == Decides && Step(s, e).loop.Top? then 1
              else if e == SleepEnds then (if 2 * s.backoff > 60 then 60 else 2 * s.backoff)
              else s.backoff
  {
  }

  predicate IsAttempt(e: Event) { e == StartSucceeds || e == StartFails }

  /** Some sleep has ended, or some Restart been answered, from step `i` on and before step `k`. */
  ghost predicate Paced(run: seq<Event>, states: seq<State>, i: nat, k: nat)
    requires IsRun(run, states) && k <= |run|
  {
    exists m :: i <= m < k && (run[m] == SleepEnds || Answers(run, states, m))
  }

  /** Two attempts to start are never made back to back: between them a sleep has ended or a Restart been answered. */
  lemma AttemptsArePaced(run: seq<Event>, states: seq<State>, i: nat, j: nat)
    requires IsRun(run, states) && i < j < |run| && IsAttempt(run[i]) && IsAttempt(run[j])
    ensures Paced(run, states, i, j)
  {
    NotStartingUnlessPaced(run, states, i, j);
    assert Enabled(states[j], run[j]);
  }

  lemma {:induction false} NotStartingUnlessPaced(run: seq<Event>, states: seq<State>, i: nat, k: nat)
    requires IsRun(run, states) && i < k <= |run| && IsAttempt(run[i])
    ensures states[k].loop.Top? || states[k].loop.Starting? ==> Paced(run, states, i, k)
  {
    assert Enabled(states[k - 1], run[k - 1]) && states[k] == Step(states[k - 1], run[k - 1]);
    if k == i + 1 {
    } else if states[k].loop.Top? || states[k].loop.Starting? {
      ReadyStep(states[k - 1], run[k - 1]);
      if !(run[k - 1] == SleepEnds || Answers(run, states, k - 1)) {
        NotStartingUnlessPaced(run, states, i, k - 1);
      }
    }
  }

  /** The loop comes to a start only from a sleep that ends, from an answered Restart, or when it was on its way. */
  lemma ReadyStep(s: State, e: Event)
    requires Enabled(s, e) && (Step(s, e).loop.Top? || Step(s, e).loop.Starting?)
    ensures s.loop.Top? || s.loop.Starting? || e == SleepEnds || (e == Decides && Step(s, e).loop.Top?)
  {
  }

  // A Restart that is refused because nothing is running still counts as a request.

  const REFUSED := INIT.(stopping := true)
  const CRASHING := REFUSED.(cmd := Some(0), restartCount := 1)

  const STALE_RUN := [
    RestartBegins(0), LoopChecks, StartSucceeds, SpawnsWaiter, ChildExits(0), WaitReturns(0), ReceivesExit,
    ClearsCommand, Decides]

  const STALE_STATES := [
    INIT, REFUSED, REFUSED.(loop := Starting),
    CRASHING.(loop := Spawning, children := [Child(true, 0, 0, false)]),
    CRASHING.(loop := Running(0), children := [Child(true, 1, 0, false)]),
    CRASHING.(loop := Running(0), children := [Child(false, 1, 0, false)]),
    CRASHING.(loop := Running(0), children := [Child(false, 1, 1, true)]),
    CRASHING.(loop := Collected(0), children := [Child(false, 1, 1, false)]),
    INIT.(restartCount := 1, children := [Child(false, 1, 1, false)], loop := Cleared(true)),
    INIT.(restartCount := 1, children := [Child(false, 1, 1, false)])]

  lemma StaleStep(k: nat)
    requires k < 9
    ensures Enabled(STALE_STATES[k], STALE_RUN[k]) && STALE_STATES[k + 1] == Step(STALE_STATES[k], STALE_RUN[k])
  {
  }

  /** A crash is not always followed by a backoff: after a Restart refused with "not running", the first crash of the
      next child respawns at once, with no Restart in progress. */
  lemma RefusedRestartHidesACrash()
    ensures IsRun(STALE_RUN, STALE_STATES) && |STALE_RUN| == 9
    ensures STALE_STATES[1].cmd.None? && STALE_STATES[1].restarters == map[] && STALE_STATES[9].loop.Top?
  {
    forall k | 0 <= k < 9
      ensures Enabled(STALE_STATES[k], STALE_RUN[k]) && STALE_STATES[k + 1] == Step(STALE_STATES[k], STALE_RUN[k])
    {
      StaleStep(k);
    }
  }

  // ---- the fields under the mutex ----

  class Supervisor {
    var cmd: Option<nat>
    var restartCount: nat
    var stopping: bool
    var children: seq<Child>

    ghost predicate Shows(s: State)
      reads this
    {
      cmd == s.cmd && restartCount == s.restartCount && stopping == s.stopping && children == s.children
    }

    constructor ()
      ensures Shows(INIT)
    {
      cmd, restartCount, stopping, children := None, 0, false, [];
    }

    /** start: refuses when a command is current. */
    method Start(startOk: bool, ghost s: State) returns (ok: bool)
      requires Shows(s) && s.loop.Starting?
      modifies this
      ensures ok == (startOk && s.cmd.None?)
      ensures ok ==> Shows(Step(s, StartSucceeds))
      ensures !ok ==> Shows(Step(s, StartFails))
    {
      if cmd.Some? { return false; }
      if !startOk { return false; }
      var id := |children|;
      children := children + [Child(true, 0, 0, false)];
      cmd := Some(id);
      restartCount := restartCount + 1;
      return true;
    }

    /** Locked region of Run after an exit. */
    method ClearCommand(ghost s: State) returns (wasStopping: bool)
      requires Shows(s) && Enabled(s, ClearsCommand)
      modifies this
      ensures Shows(Step(s, ClearsCommand)) && wasStopping == s.stopping
    {
      wasStopping := stopping;
      stopping := false;
      cmd := None;
    }

    /** Locked region of Restart: the flag is raised before the caller learns whether anything is running. */
    method RestartBegin(ghost s: State, ghost r: nat) returns (target: Option<nat>)
      requires Shows(s) && Enabled(s, RestartBegins(r))
      modifies this`stopping
      ensures Shows(Step(s, RestartBegins(r))) && target == s.cmd
      ensures target.Some?
              ==> r in Step(s, RestartBegins(r)).restarters && Step(s, RestartBegins(r)).restarters[r] == target.value
    {
      stopping := true;
      return cmd;
    }
  }
}
