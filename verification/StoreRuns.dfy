/** Runs of the version store: completed operations, interrupted ones, and where a rollback leads. */
module StoreRuns {
  import opened Text
  import opened Store

  /** `listing` is the order in which the operation found the versions; a reset may meet them in any `order`. */
  datatype Action =
    | Install(r: Release, includeGeo: bool, now: int, listing: seq<string>)
    | Rollback(listing: seq<string>)
    | Reset(order: seq<string>, tempFirst: bool, now: int)

  ghost predicate Possible(d: Disk, a: Action) {
    match a
    case Install(r, _, now, listing) =>
      (forall v :: v in d.versions ==> d.versions[v].time < now) && IsListing(listing, Installed(d, r, now))
    case Rollback(listing) => IsListing(listing, d.versions) && |listing| >= 2
    case Reset(order, _, _) => forall v :: v in d.versions ==> v in order
  }

  ghost function OpsOf(d: Disk, a: Action): seq<Op> {
    match a
    case Install(r, includeGeo, now, listing) => CommitOps(r, includeGeo, now, d.record, listing)
    case Rollback(listing) => if |listing| < 2 then [] else RollbackOps(listing[1], d.record)
    case Reset(order, tempFirst, now) => ResetOps(order, tempFirst, now)
  }

  ghost function Done(d: Disk, a: Action): Disk { Run(d, OpsOf(d, a)) }

  ghost predicate Next(d: Disk, a: Action, e: Disk) { Possible(d, a) && e == Done(d, a) }

  /** `next` holds along a sequence of steps and of the disks between them. */
  ghost predicate Chain<T(!new)>(next: (Disk, T, Disk) -> bool, run: seq<T>, disks: seq<Disk>) {
    && |disks| == |run| + 1
    && forall k :: 0 <= k < |run| ==> next(disks[k], run[k], disks[k + 1])
  }

  lemma ChainExtends<T(!new)>(next: (Disk, T, Disk) -> bool, run: seq<T>, disks: seq<Disk>, t: T, e: Disk)
    requires Chain(next, run, disks) && next(disks[|run|], t, e)
    ensures Chain(next, run + [t], disks + [e])
  {
  }

  ghost predicate IsRun(run: seq<Action>, disks: seq<Disk>) { Chain(Next, run, disks) && disks[0] == FRESH }

  // ---- completed operations ----

  ghost predicate DistinctTimes(versions: map<string, Dir>) {
    forall v, w :: v in versions && w in versions && v != w ==> versions[v].time != versions[w].time
  }

  ghost predicate AllIntact(versions: map<string, Dir>) { forall v :: v in versions ==> Intact(versions[v]) }

  /** Every directory holds an intact binary and has its own time, at most two remain, and the link leads to one of
      them. */
  ghost predicate Sound(d: Disk) {
    && AllIntact(d.versions) && DistinctTimes(d.versions) && |d.versions| <= 2
    && (d.link.Some? ==> d.link.value in d.versions)
  }

  lemma FirstIsNewest(listing: seq<string>, versions: map<string, Dir>)
    requires IsListing(listing, versions) && |listing| > 0
    ensures listing[0] in versions && forall v :: v in versions ==> versions[v].time <= versions[listing[0]].time
  {
    forall v | v in versions ensures versions[v].time <= versions[listing[0]].time {
      var i :| 0 <= i < |listing| && listing[i] == v;
    }
  }

  lemma NewestIsListedFirst(listing: seq<string>, versions: map<string, Dir>, v: string)
    requires IsListing(listing, versions) && v in versions
    requires forall w :: w in versions && w != v ==> versions[w].time < versions[v].time
    ensures |listing| > 0 && listing[0] == v
  {
    assert v in listing;
    FirstIsNewest(listing, versions);
  }

  /** The rotation keeps the two newest versions, and so the one just installed. */
  lemma RotationKeepsTwo(all: map<string, Dir>, keep: string, listing: seq<string>)
    requires IsListing(listing, all) && |listing| > 0 && listing[0] == keep
    ensures var kept := all - Gone(Beyond(listing), Some(keep));
            && kept.Keys == (if |listing| == 1 then {keep} else {keep, listing[1]}) && |kept| <= 2
  {
    var kept := all - Gone(Beyond(listing), Some(keep));
    forall v ensures v in kept.Keys <==> v == keep || (|listing| > 1 && v == listing[1]) {
      if v in all {
        var i :| 0 <= i < |listing| && listing[i] == v;
        if i >= 2 { assert Beyond(listing)[i - 2] == v; }
      }
    }
    assert kept.Keys == if |listing| == 1 then {keep} else {keep, listing[1]};
    assert |kept| == |kept.Keys|;
  }

  lemma InstallRotates(d: Disk, r: Release, includeGeo: bool, now: int, listing: seq<string>)
    requires Possible(d, Install(r, includeGeo, now, listing))
    ensures |listing| > 0 && listing[0] == r.version
    ensures var e := Done(d, Install(r, includeGeo, now, listing));
            && e.versions.Keys == (if |listing| == 1 then {r.version} else {r.version, listing[1]})
            && |e.versions| <= 2
            && (forall v :: v in e.versions ==> v in Installed(d, r, now) && e.versions[v] == Installed(d, r, now)[v])
            && e.link == Some(r.version)
            && (forall v :: v in e.versions && v != r.version ==> e.versions[v].time < e.versions[r.version].time)
  {
    var all := Installed(d, r, now);
    CommitIs(d, r, includeGeo, now, listing);
    NewestIsListedFirst(listing, all, r.version);
    RotationKeepsTwo(all, r.version, listing);
  }

  lemma InstalledIsSound(d: Disk, r: Release, now: int)
    requires Sound(d) && forall v :: v in d.versions ==> d.versions[v].time < now
    ensures AllIntact(Installed(d, r, now)) && DistinctTimes(Installed(d, r, now))
  {
  }

  lemma SomeAreSound(some: map<string, Dir>, all: map<string, Dir>)
    requires AllIntact(all) && DistinctTimes(all) && forall v :: v in some ==> v in all && some[v] == all[v]
    ensures AllIntact(some) && DistinctTimes(some)
  {
  }

  lemma ActionKeepsSound(d: Disk, a: Action)
    requires Sound(d) && Possible(d, a)
    ensures Sound(Done(d, a))
  {
    match a
    case Install(r, includeGeo, now, listing) =>
      InstallRotates(d, r, includeGeo, now, listing);
      InstalledIsSound(d, r, now);
      SomeAreSound(Done(d, a).versions, Installed(d, r, now));
    case Rollback(listing) => RollbackIs(d, listing[1]);
    case Reset(order, tempFirst, now) => ResetIs(d, order, tempFirst, now);
  }

  /** Over any run of completed installs, rollbacks and resets with strictly increasing directory times, the link always
      leads to an intact binary and at most two versions remain. */
  lemma {:induction false} RunKeepsSound(run: seq<Action>, disks: seq<Disk>, k: nat)
    requires IsRun(run, disks) && k <= |run|
    ensures forall j :: 0 <= j <= k ==> Sound(disks[j]) && (Live(disks[j]).Some? <==> disks[j].link.Some?)
  {
    if k == 0 {
      assert |FRESH.versions| == 0;
    } else {
      RunKeepsSound(run, disks, k - 1);
      assert Next(disks[k - 1], run[k - 1], disks[k - 1 + 1]);
      ActionKeepsSound(disks[k - 1], run[k - 1]);
    }
  }

  // ---- where a rollback leads ----

  lemma InstallThenRollback(d: Disk, r: Release, includeGeo: bool, now: int, listing: seq<string>, found: seq<string>)
    requires Possible(d, Install(r, includeGeo, now, listing))
    requires Possible(Done(d, Install(r, includeGeo, now, listing)), Rollback(found))
    ensures |listing| >= 2 && listing[0] == r.version
    ensures Done(Done(d, Install(r, includeGeo, now, listing)), Rollback(found)).link == Some(listing[1])
  {
    var e := Done(d, Install(r, includeGeo, now, listing));
    InstallRotates(d, r, includeGeo, now, listing);
    SecondOfTwo(found, e.versions, r.version, listing);
    RollbackIs(e, found[1]);
  }

  lemma SecondOfTwo(found: seq<string>, versions: map<string, Dir>, v: string, listing: seq<string>)
    requires IsListing(found, versions) && |found| >= 2 && listing != []
    requires v in versions && forall w :: w in versions && w != v ==> versions[w].time < versions[v].time
    requires versions.Keys == if |listing| == 1 then {v} else {v, listing[1]}
    ensures |listing| >= 2 && found[1] == listing[1]
  {
    NewestIsListedFirst(found, versions, v);
    assert found[1] in versions.Keys && found[1] != v;
  }

  /** Rolling back an installation restores the version that the link led to before it exactly when that version is
      there, is not the one installed, and was the newest of the others: after a rollback it is not, whatever
      `previous` says. */
  lemma RollbackUndoesInstallIff(d: Disk, r: Release, includeGeo: bool, now: int, listing: seq<string>,
                                 found: seq<string>, live: string)
    requires Possible(d, Install(r, includeGeo, now, listing)) && DistinctTimes(d.versions)
    requires Possible(Done(d, Install(r, includeGeo, now, listing)), Rollback(found))
    requires d.link == Some(live)
    ensures Done(Done(d, Install(r, includeGeo, now, listing)), Rollback(found)).link == d.link
            <==> NewestOther(d.versions, r.version, live)
  {
    InstallThenRollback(d, r, includeGeo, now, listing, found);
    SecondIsNewestOther(listing, Installed(d, r, now), r.version);
    NewestOtherIff(d.versions, Installed(d, r, now), r.version, listing[1], live);
  }

  /** `v` is there and newer than every other version but `own`, from which it differs. */
  ghost predicate NewestOther(versions: map<string, Dir>, own: string, v: string) {
    v in versions && v != own && forall w :: w in versions && w != own && w != v ==> versions[w].time < versions[v].time
  }

  lemma NewestOtherIff(versions: map<string, Dir>, all: map<string, Dir>, own: string, second: string, live: string)
    requires DistinctTimes(versions) && second in all && second != own
    requires forall v :: v != own ==> (v in all <==> v in versions) && (v in all ==> all[v] == versions[v])
    requires forall w :: w in all && w != own && w != second ==> all[w].time <= all[second].time
    ensures second == live <==> NewestOther(versions, own, live)
  {
    assert second in versions;
  }

  lemma SecondIsNewestOther(listing: seq<string>, all: map<string, Dir>, v: string)
    requires IsListing(listing, all) && |listing| >= 2 && listing[0] == v
    ensures listing[1] in all && listing[1] != v
    ensures forall w :: w in all && w != v && w != listing[1] ==> all[w].time <= all[listing[1]].time
  {
    forall w | w in all && w != v && w != listing[1] ensures all[w].time <= all[listing[1]].time {
      var i :| 0 <= i < |listing| && listing[i] == w;
      assert all[listing[1]].time >= all[listing[i]].time;
    }
  }

  /** A second rollback in a row changes the link no further, and records the live version as its own predecessor. */
  lemma SecondRollbackStays(d: Disk, first: seq<string>, second: seq<string>)
    requires Possible(d, Rollback(first)) && Possible(Done(d, Rollback(first)), Rollback(second))
    requires DistinctTimes(d.versions)
    ensures var e := Done(d, Rollback(first)); var f := Done(e, Rollback(second));
            f.link == e.link && f.record.previous == f.record.installed == e.record.installed
  {
    RollbackIs(d, first[1]);
    var e := Done(d, Rollback(first));
    RollbackIs(e, second[1]);
    NewestAgree(first, second, d.versions);
  }

  /** With distinct times all listings start alike. */
  lemma NewestAgree(a: seq<string>, b: seq<string>, versions: map<string, Dir>)
    requires IsListing(a, versions) && IsListing(b, versions) && |a| >= 2 && |b| >= 2
    requires DistinctTimes(versions)
    ensures a[0] == b[0] && a[1] == b[1]
  {
    forall w | w in versions && w != a[0] ensures versions[w].time < versions[a[0]].time {
      var i :| 0 <= i < |a| && a[i] == w;
      assert a[0] in versions && versions[a[0]].time >= versions[a[i]].time;
    }
    assert a[0] in versions;
    NewestIsListedFirst(b, versions, a[0]);
    SecondIsNewestOther(a, versions, a[0]);
    SecondIsNewestOther(b, versions, a[0]);
  }

  // ---- small stores, for the findings ----

  /** A release without geo files. */
  function Plain(version: string, content: int): Release { Release(version, content, true, None, None, "upload") }

  function Usable(content: int, time: int): Dir { Dir(Some(Blob(content, true)), time) }

  lemma InstallFirst(d: Disk, r: Release, now: int)
    requires d.versions == map[] && r == Plain(r.version, r.content)
    ensures var a := Install(r, true, now, [r.version]);
            && Possible(d, a) && Done(d, a).link == Some(r.version)
            && Done(d, a).versions == map[r.version := Usable(r.content, now)]
  {
    CommitIs(d, r, true, now, [r.version]);
    assert Gone(Beyond([r.version]), Some(r.version)) == {};
  }

  lemma InstallSecond(d: Disk, r: Release, now: int, v: string, dir: Dir)
    requires d.versions == map[v := dir] && v != r.version && dir.time < now && r == Plain(r.version, r.content)
    ensures var a := Install(r, true, now, [r.version, v]);
            && Possible(d, a) && Done(d, a).link == Some(r.version)
            && Done(d, a).versions == map[v := dir, r.version := Usable(r.content, now)]
  {
    CommitIs(d, r, true, now, [r.version, v]);
    assert Gone(Beyond([r.version, v]), Some(r.version)) == {};
  }

  /** With two versions there already, the older one goes. */
  lemma InstallThird(d: Disk, r: Release, now: int, v: string, dir: Dir, oldest: string, oldDir: Dir)
    requires d.versions == map[oldest := oldDir, v := dir] && v != oldest && v != r.version && oldest != r.version
    requires oldDir.time < dir.time < now && r == Plain(r.version, r.content)
    ensures var a := Install(r, true, now, [r.version, v, oldest]);
            && Possible(d, a) && Done(d, a).link == Some(r.version)
            && Done(d, a).versions == map[v := dir, r.version := Usable(r.content, now)]
  {
    var listing := [r.version, v, oldest];
    CommitIs(d, r, true, now, listing);
    assert Beyond(listing) == [oldest];
    assert Gone([oldest], Some(r.version)) == {oldest};
    DropOldest(r.version, Usable(r.content, now), v, dir, oldest, oldDir);
  }

  lemma DropOldest(r: string, new_: Dir, v: string, dir: Dir, oldest: string, oldDir: Dir)
    requires v != oldest && v != r && oldest != r
    ensures map[oldest := oldDir, v := dir][r := new_] - {oldest} == map[v := dir, r := new_]
  {
  }

  lemma RollbackOfTwo(d: Disk, v: string, dir: Dir, oldest: string, oldDir: Dir)
    requires d.versions == map[oldest := oldDir, v := dir] && v != oldest && oldDir.time < dir.time
    ensures var a := Rollback([v, oldest]);
            Possible(d, a) && Done(d, a).versions == d.versions && Done(d, a).link == Some(oldest)
  {
    RollbackIs(d, oldest);
  }

  /** A run of completed operations leads from a fresh store to `d`. */
  ghost predicate EndsIn(run: seq<Action>, d: Disk) { exists disks :: IsRun(run, disks) && disks[|run|] == d }

  lemma EndsInFresh()
    ensures EndsIn([], FRESH)
  {
    assert IsRun([], [FRESH]);
  }

  lemma EndsInNext(run: seq<Action>, d: Disk, a: Action)
    requires EndsIn(run, d) && Possible(d, a)
    ensures EndsIn(run + [a], Done(d, a))
  {
    var disks :| IsRun(run, disks) && disks[|run|] == d;
    ChainExtends(Next, run, disks, a, Done(d, a));
    assert IsRun(run + [a], disks + [Done(d, a)]);
  }

  /** The run ends with `v` and the newer `w` there, and with `live` live. */
  ghost predicate WithTwo(run: seq<Action>, d: Disk, v: string, w: string, live: string) {
    EndsIn(run, d) && d.versions == map[v := Usable(1, 1), w := Usable(2, 2)] && d.link == Some(live)
  }

  lemma TwoInstalled(v: string, w: string)
    requires v != w
    ensures exists run, d :: WithTwo(run, d, v, w, w)
  {
    var a, b := Install(Plain(v, 1), true, 1, [v]), Install(Plain(w, 2), true, 2, [w, v]);
    EndsInFresh();
    InstallFirst(FRESH, Plain(v, 1), 1);
    EndsInNext([], FRESH, a);
    var d := Done(FRESH, a);
    InstallSecond(d, Plain(w, 2), 2, v, Usable(1, 1));
    EndsInNext([] + [a], d, b);
    assert WithTwo([] + [a] + [b], Done(d, b), v, w, w);
  }

  /** Two installations and a rollback. */
  lemma BackToTheFirst(v: string, w: string)
    requires v != w
    ensures exists run, d :: WithTwo(run, d, v, w, v)
  {
    TwoInstalled(v, w);
    var run, d :| WithTwo(run, d, v, w, w);
    RollbackOfTwo(d, w, Usable(2, 2), v, Usable(1, 1));
    EndsInNext(run, d, Rollback([w, v]));
    assert WithTwo(run + [Rollback([w, v])], Done(d, Rollback([w, v])), v, w, v);
  }

  /** From `d`, where `v` is live, a possible installation followed by a possible rollback leads to `w`. */
  ghost predicate Misses(d: Disk, a: Action, b: Action, v: string, w: string) {
    && d.link == Some(v) && a.Install? && Possible(d, a)
    && b.Rollback? && Possible(Done(d, a), b) && Done(Done(d, a), b).link == Some(w)
  }

  /** A reachable disk on which rolling an installation back does not undo it: after a rollback from `w` to `v`,
      installing `x` drops `v`, the version that is live, and the next rollback leads to `w`. */
  lemma RollbackCanMiss(v: string, w: string, x: string)
    requires v != w && v != x && w != x
    ensures exists run, d, a, b :: EndsIn(run, d) && Misses(d, a, b, v, w)
  {
    BackToTheFirst(v, w);
    var run, d :| WithTwo(run, d, v, w, v);
    var a, b := Install(Plain(x, 3), true, 3, [x, w, v]), Rollback([x, w]);
    InstallThird(d, Plain(x, 3), 3, w, Usable(2, 2), v, Usable(1, 1));
    RollbackOfTwo(Done(d, a), x, Usable(3, 3), w, Usable(2, 2));
    assert Misses(d, a, b, v, w);
  }

  // ---- interrupted operations ----

  /** An action that stops, by a crash or an error return, after its first `steps` operations; a completed one has
      done all. */
  datatype Attempt = Attempt(a: Action, steps: nat)

  ghost predicate Feasible(d: Disk, t: Attempt) { Possible(d, t.a) && t.steps <= |OpsOf(d, t.a)| }

  ghost function After(d: Disk, t: Attempt): Disk
    requires Feasible(d, t)
  {
    Run(d, OpsOf(d, t.a)[..t.steps])
  }

  ghost predicate NextAttempt(d: Disk, t: Attempt, e: Disk) { Feasible(d, t) && e == After(d, t) }

  ghost predicate IsHistory(run: seq<Attempt>, disks: seq<Disk>) { Chain(NextAttempt, run, disks) && disks[0] == FRESH }

  /** Installing stopped after the old directory was touched and before the new binary was in place and executable. */
  predicate StoppedEarly(r: Release, steps: nat) { 1 <= steps <= 3 || (steps == 4 && !r.executable) }

  /** The version whose directory is being deleted when operations stop: its binary is gone, the directory is not. */
  function HalfDeleted(ops: seq<Op>): set<string> {
    if ops != [] && ops[|ops| - 1].DeleteBinary? then {ops[|ops| - 1].v} else {}
  }

  /** The versions left partial, given those that were partial before an attempt. */
  ghost function PartialAfter(partial: set<string>, d: Disk, t: Attempt): set<string>
    requires Feasible(d, t)
  {
    match t.a
    case Install(r, _, _, _) =>
      if t.steps == 0 then partial
      else if StoppedEarly(r, t.steps) then partial + {r.version}
      else partial - {r.version} + HalfDeleted(OpsOf(d, t.a)[..t.steps])
    case Rollback(_) => partial
    case Reset(_, _, _) => partial + HalfDeleted(OpsOf(d, t.a)[..t.steps])
  }

  ghost function PartialAt(run: seq<Attempt>, disks: seq<Disk>, k: nat): set<string>
    requires IsHistory(run, disks) && k <= |run|
  {
    if k == 0 then {}
    else
      assert NextAttempt(disks[k - 1], run[k - 1], disks[k - 1 + 1]);
      PartialAfter(PartialAt(run, disks, k - 1), disks[k - 1], run[k - 1])
  }

  /** Exactly the versions in `partial` lack a usable binary. */
  ghost predicate PartialAre(d: Disk, partial: set<string>) {
    forall v :: v in d.versions ==> (Intact(d.versions[v]) <==> v !in partial)
  }

  /** Operations that put nothing in place, and complete each deletion before they go on. */
  ghost predicate Tidy(ops: seq<Op>) {
    && (forall i :: 0 <= i < |ops| ==> !ops[i].MakeDir? && !ops[i].MoveBinary? && !ops[i].MakeExecutable?)
    && (forall i :: 0 < i < |ops| && ops[i - 1].DeleteBinary? ==> ops[i] == DeleteDir(ops[i - 1].v))
  }

  lemma TidyPrefix(ops: seq<Op>, k: nat)
    requires Tidy(ops) && k <= |ops|
    ensures Tidy(ops[..k])
  {
  }

  lemma TidyConcat(a: seq<Op>, b: seq<Op>)
    requires Tidy(a) && Tidy(b) && HalfDeleted(a) == {}
    ensures Tidy(a + b) && (HalfDeleted(b) == {} ==> HalfDeleted(a + b) == {})
  {
  }

  /** Deletions leave the other directories alone. */
  lemma {:induction false} TidyKeeps(d: Disk, ops: seq<Op>)
    requires Tidy(ops)
    ensures var e := Run(d, ops);
            forall v :: v in e.versions ==>
              && v in d.versions
              && (if v in HalfDeleted(ops) then e.versions[v].binary.None? else e.versions[v] == d.versions[v])
    decreases |ops|
  {
    if ops == [] {
    } else {
      TidyPrefix(ops, |ops| - 1);
      TidyKeeps(d, ops[..|ops| - 1]);
    }
  }

  lemma RemovalIsTidy(name: string, keep: Option<string>, now: int)
    ensures Tidy(Removal(name, keep, now)) && HalfDeleted(Removal(name, keep, now)) == {}
  {
  }

  lemma {:induction false} RemovalsAreTidy(names: seq<string>, keep: Option<string>, now: int)
    ensures Tidy(Removals(names, keep, now)) && HalfDeleted(Removals(names, keep, now)) == {}
  {
    if names == [] {
    } else {
      var n := |names| - 1;
      RemovalsAreTidy(names[..n], keep, now);
      RemovalIsTidy(names[n], keep, now);
      TidyConcat(Removals(names[..n], keep, now), Removal(names[n], keep, now));
    }
  }

  lemma GeoIsTidy(name: string, content: Option<int>)
    ensures Tidy(GeoOps(name, content)) && HalfDeleted(GeoOps(name, content)) == {}
  {
  }

  lemma TailIsTidy(r: Release, includeGeo: bool, was: Record)
    ensures Tidy(TailOps(r, includeGeo, was)) && HalfDeleted(TailOps(r, includeGeo, was)) == {}
  {
    var a, b := GeoOps("geoip.dat", r.geoip), GeoOps("geosite.dat", r.geosite);
    GeoIsTidy("geoip.dat", r.geoip);
    GeoIsTidy("geosite.dat", r.geosite);
    TidyConcat(a, b);
    TidyConcat(if includeGeo then a + b else [], [Save(Record(r.version, was.installed, r.source))]);
  }

  lemma RestIsTidy(r: Release, includeGeo: bool, now: int, was: Record, listing: seq<string>)
    ensures Tidy(RestOps(r, includeGeo, now, was, listing))
  {
    RemovalsAreTidy(Beyond(listing), Some(r.version), now);
    TailIsTidy(r, includeGeo, was);
    TidyConcat(TailOps(r, includeGeo, was), Removals(Beyond(listing), Some(r.version), now));
  }

  lemma ResetIsTidy(order: seq<string>, tempFirst: bool, now: int)
    ensures Tidy(ResetOps(order, tempFirst, now))
  {
    RemovalsAreTidy(order, None, now);
    TidyConcat(Removals(order, None, now), [ClearGeo, Save(NO_RECORD)]);
    TidyConcat(UnlinkOps(tempFirst), Removals(order, None, now) + [ClearGeo, Save(NO_RECORD)]);
  }

  lemma TidyKeepsPartial(d: Disk, ops: seq<Op>, partial: set<string>)
    requires Tidy(ops) && PartialAre(d, partial)
    ensures PartialAre(Run(d, ops), partial + HalfDeleted(ops))
  {
    TidyKeeps(d, ops);
  }

  lemma HeadKeepsPartial(d: Disk, r: Release, now: int, k: nat, partial: set<string>)
    requires PartialAre(d, partial) && 1 <= k <= 8
    ensures PartialAre(HeadState(d, r, now, k),
                       if StoppedEarly(r, k) then partial + {r.version} else partial - {r.version})
  {
  }

  lemma InstallKeepsPartial(d: Disk, r: Release, includeGeo: bool, now: int, was: Record, listing: seq<string>,
                            k: nat, partial: set<string>)
    requires PartialAre(d, partial) && 8 < k <= |CommitOps(r, includeGeo, now, was, listing)|
    ensures var ops := CommitOps(r, includeGeo, now, was, listing)[..k];
            PartialAre(Run(d, ops), partial - {r.version} + HalfDeleted(ops))
  {
    var ops, rest := CommitOps(r, includeGeo, now, was, listing), RestOps(r, includeGeo, now, was, listing);
    HeadRuns(d, r, now, 8);
    assert HeadOps(r, now)[..8] == HeadOps(r, now);
    assert ops[..k] == HeadOps(r, now) + rest[..k - 8];
    RunConcat(d, HeadOps(r, now), rest[..k - 8]);
    HeadKeepsPartial(d, r, now, 8, partial);
    RestIsTidy(r, includeGeo, now, was, listing);
    TidyPrefix(rest, k - 8);
    TidyKeepsPartial(HeadState(d, r, now, 8), rest[..k - 8], partial - {r.version});
  }

  lemma AttemptKeepsPartial(d: Disk, t: Attempt, partial: set<string>)
    requires Feasible(d, t) && PartialAre(d, partial)
    ensures PartialAre(After(d, t), PartialAfter(partial, d, t))
  {
    match t.a
    case Install(r, includeGeo, now, listing) =>
      var ops := OpsOf(d, t.a);
      if t.steps <= 8 {
        assert ops[..t.steps] == HeadOps(r, now)[..t.steps];
        HeadRuns(d, r, now, t.steps);
        if t.steps > 0 { HeadKeepsPartial(d, r, now, t.steps, partial); }
      } else {
        InstallKeepsPartial(d, r, includeGeo, now, d.record, listing, t.steps, partial);
      }
    case Rollback(listing) => RollbackKeepsVersions(d, listing[1], t.steps);
    case Reset(order, tempFirst, now) =>
      ResetIsTidy(order, tempFirst, now);
      TidyPrefix(OpsOf(d, t.a), t.steps);
      TidyKeepsPartial(d, OpsOf(d, t.a)[..t.steps], partial);
  }

  lemma RollbackKeepsVersions(d: Disk, target: string, k: nat)
    requires k <= 4
    ensures var e := Run(d, RollbackOps(target, d.record)[..k]);
            e.versions == d.versions && e.link == if k < 3 then d.link else Some(target)
  {
    RollbackRuns(d, target, k);
  }

  /** Through any history of completed and interrupted operations, exactly these directories lack a usable binary:
      those of versions whose last installation stopped early, and those that a rotation or a reset stopped deleting
      half-way. */
  lemma {:induction false} PartialDirectoriesAre(run: seq<Attempt>, disks: seq<Disk>, k: nat)
    requires IsHistory(run, disks) && k <= |run|
    ensures PartialAre(disks[k], PartialAt(run, disks, k))
  {
    if k == 0 {
    } else {
      PartialDirectoriesAre(run, disks, k - 1);
      assert NextAttempt(disks[k - 1], run[k - 1], disks[k - 1 + 1]);
      AttemptKeepsPartial(disks[k - 1], run[k - 1], PartialAt(run, disks, k - 1));
    }
  }

  /** A rollback, anywhere in a history, leaves a live binary exactly when the second newest version is not partial. */
  lemma RollbackIsLiveIff(run: seq<Attempt>, disks: seq<Disk>, k: nat, listing: seq<string>)
    requires IsHistory(run, disks) && k <= |run| && Possible(disks[k], Rollback(listing))
    ensures Live(Done(disks[k], Rollback(listing))).Some? <==> Intact(disks[k].versions[listing[1]])
    ensures Intact(disks[k].versions[listing[1]]) <==> listing[1] !in PartialAt(run, disks, k)
  {
    PartialDirectoriesAre(run, disks, k);
    RollbackIs(disks[k], listing[1]);
    assert listing[1] in disks[k].versions;
  }

  /** What makes an attempt take the live binary away: reinstalling the live version and stopping early, flipping the
      link to a partial directory in a rollback, or unlinking in a reset. */
  ghost predicate TakesLiveAway(d: Disk, t: Attempt)
    requires Feasible(d, t)
  {
    match t.a
    case Install(r, _, _, _) => d.link == Some(r.version) && StoppedEarly(r, t.steps)
    case Rollback(listing) => t.steps >= 3 && !Intact(d.versions[listing[1]])
    case Reset(_, tempFirst, _) => t.steps > BeforeUnlink(tempFirst)
  }

  /** A usable live link stops being usable in exactly these cases. */
  lemma LiveIsLostIff(d: Disk, t: Attempt)
    requires Feasible(d, t) && Live(d).Some?
    ensures Live(After(d, t)).None? <==> TakesLiveAway(d, t)
  {
    match t.a
    case Install(r, includeGeo, now, listing) =>
      if t.steps < 8 {
        assert OpsOf(d, t.a)[..t.steps] == HeadOps(r, now)[..t.steps];
        HeadRuns(d, r, now, t.steps);
      } else {
        LiveAfterFlip(d, r, includeGeo, now, d.record, listing, t.steps);
      }
    case Rollback(listing) =>
      RollbackKeepsVersions(d, listing[1], t.steps);
      assert listing[1] in d.versions;
    case Reset(order, tempFirst, now) => ResetCrash(d, order, tempFirst, now, t.steps);
  }

  /** A history leads from a fresh store to `d`. */
  ghost predicate HistoryEndsIn(run: seq<Attempt>, d: Disk) {
    exists disks :: IsHistory(run, disks) && disks[|run|] == d
  }

  lemma HistoryEndsInNext(run: seq<Attempt>, d: Disk, t: Attempt)
    requires HistoryEndsIn(run, d) && Feasible(d, t)
    ensures HistoryEndsIn(run + [t], After(d, t))
  {
    var disks :| IsHistory(run, disks) && disks[|run|] == d;
    ChainExtends(NextAttempt, run, disks, t, After(d, t));
    assert IsHistory(run + [t], disks + [After(d, t)]);
  }

  /** The history ends in the middle of installing `w`, with `v` live. */
  ghost predicate Stopped(run: seq<Attempt>, d: Disk, v: string, w: string) {
    && HistoryEndsIn(run, d) && |run| == 2 && run[1].a.Install? && run[1].steps == 3
    && d.versions == map[v := Usable(1, 1), w := Dir(None, 2)] && d.link == Some(v)
  }

  /** Installing `v`, then `w` up to the point where its directory has been made. */
  lemma StoppedSecond(v: string, w: string)
    requires v != w
    ensures exists run, d :: Stopped(run, d, v, w)
  {
    var a, b := Install(Plain(v, 1), true, 1, [v]), Install(Plain(w, 2), true, 2, [w, v]);
    assert IsHistory([], [FRESH]) && HistoryEndsIn([], FRESH);
    InstallFirst(FRESH, Plain(v, 1), 1);
    HistoryEndsInWhole([], FRESH, a);
    var d := Done(FRESH, a);
    InstallSecond(d, Plain(w, 2), 2, v, Usable(1, 1));
    StopAfterMakeDir(d, Plain(w, 2), 2, [w, v]);
    HistoryEndsInNext([] + [Whole(FRESH, a)], d, Attempt(b, 3));
    assert Stopped([] + [Whole(FRESH, a)] + [Attempt(b, 3)], After(d, Attempt(b, 3)), v, w);
  }

  /** On `d` a binary is live, and a possible rollback to `w` leaves none. */
  ghost predicate Dangles(d: Disk, a: Action, w: string) {
    Live(d).Some? && a.Rollback? && Possible(d, a) && Done(d, a).link == Some(w) && Live(Done(d, a)).None?
  }

  lemma ThirdThenDangles(d: Disk, v: string, w: string, x: string)
    requires d.versions == map[v := Usable(1, 1), w := Dir(None, 2)] && v != w && v != x && w != x
    ensures exists a, b :: Possible(d, a) && Dangles(Done(d, a), b, w)
  {
    var a, b := Install(Plain(x, 3), true, 3, [x, w, v]), Rollback([x, w]);
    InstallThird(d, Plain(x, 3), 3, w, Dir(None, 2), v, Usable(1, 1));
    RollbackOfTwo(Done(d, a), x, Usable(3, 3), w, Dir(None, 2));
    assert Dangles(Done(d, a), b, w);
  }

  /** A rollback onto an interrupted installation: `v` is live; installing `w` stops after its directory is made;
      installing `x` keeps the two newest, `x` and the partial `w`; the rollback makes the link lead to `w`, which has
      no binary. */
  lemma RollbackCanDangle(v: string, w: string, x: string)
    requires v != w && v != x && w != x
    ensures exists run, d, a :: HistoryEndsIn(run, d) && Dangles(d, a, w)
  {
    StoppedSecond(v, w);
    var run, d :| Stopped(run, d, v, w);
    ThirdThenDangles(d, v, w, x);
    var a, b :| Possible(d, a) && Dangles(Done(d, a), b, w);
    HistoryEndsInWhole(run, d, a);
  }

  ghost function Whole(d: Disk, a: Action): Attempt { Attempt(a, |OpsOf(d, a)|) }

  lemma HistoryEndsInWhole(run: seq<Attempt>, d: Disk, a: Action)
    requires HistoryEndsIn(run, d) && Possible(d, a)
    ensures HistoryEndsIn(run + [Whole(d, a)], Done(d, a))
  {
    assert OpsOf(d, a)[..|OpsOf(d, a)|] == OpsOf(d, a);
    HistoryEndsInNext(run, d, Whole(d, a));
  }

  lemma StopAfterMakeDir(d: Disk, r: Release, now: int, listing: seq<string>)
    ensures 3 <= |OpsOf(d, Install(r, true, now, listing))|
    ensures var e := Run(d, OpsOf(d, Install(r, true, now, listing))[..3]);
            e.versions == d.versions[r.version := Dir(None, now)] && e.link == d.link
  {
    assert OpsOf(d, Install(r, true, now, listing))[..3] == HeadOps(r, now)[..3];
    HeadRuns(d, r, now, 3);
    assert (d.versions - {r.version})[r.version := Dir(None, now)] == d.versions[r.version := Dir(None, now)];
  }
}
