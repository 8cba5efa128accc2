/** The versioned store of xray binaries: install, rotate, roll back and reset behind one symbolic link. */
module Store {
  import opened Text

  const MAX_KEPT: nat := 2

  datatype Blob = Blob(content: int, executable: bool)

  /** A directory under versions/: its xray file and its modification time. */
  datatype Dir = Dir(binary: Option<Blob>, time: int)

  /** The part of state.json that names versions. */
  datatype Record = Record(installed: string, previous: string, source: string)

  const NO_RECORD := Record("", "", "")

  /** `link` and `temp` are the versions that bin/xray and bin/xray.new point into; `geo` holds the assets. */
  datatype Disk = Disk(versions: map<string, Dir>, link: Option<string>, temp: Option<string>, geo: map<string, int>,
                       record: Record)

  const FRESH := Disk(map[], None, None, map[], NO_RECORD)

  // ---- file-system operations, one atomic step each ----

  datatype Op =
    | DeleteBinary(v: string, now: int) | DeleteDir(v: string)          // the two steps of RemoveAll on a version
    | MakeDir(v: string, now: int) | MoveBinary(v: string, blob: Blob, now: int) | MakeExecutable(v: string)
    | DropTemp | MakeTemp(v: string) | Flip
    | PutGeo(name: string, content: int) | RenameGeo(from: string, to: string)
    | Save(record: Record)
    | DropLink | ClearGeo

  function SetDir(d: Disk, v: string, dir: Dir): Disk { d.(versions := d.versions[v := dir]) }

  function Apply(d: Disk, op: Op): Disk {
    match op
    case DeleteBinary(v, now) => if v in d.versions then SetDir(d, v, Dir(None, now)) else d
    case DeleteDir(v) => d.(versions := d.versions - {v})
    case MakeDir(v, now) => if v in d.versions then d else SetDir(d, v, Dir(None, now))
    case MoveBinary(v, blob, now) => if v in d.versions then SetDir(d, v, Dir(Some(blob), now)) else d
    case MakeExecutable(v) =>
      if v in d.versions && d.versions[v].binary.Some? then
        SetDir(d, v, d.versions[v].(binary := Some(d.versions[v].binary.value.(executable := true))))
      else d
    case DropTemp => d.(temp := None)
    case MakeTemp(v) => if d.temp.None? then d.(temp := Some(v)) else d
    case Flip => if d.temp.Some? then d.(link := d.temp, temp := None) else d
    case PutGeo(name, content) => d.(geo := d.geo[name := content])
    case RenameGeo(from, to) => if from in d.geo then d.(geo := (d.geo - {from})[to := d.geo[from]]) else d
    case Save(record) => d.(record := record)
    case DropLink => d.(link := None)
    case ClearGeo => d.(geo := map[])
  }

  function Run(d: Disk, ops: seq<Op>): Disk {
    if ops == [] then d else Apply(Run(d, ops[..|ops| - 1]), ops[|ops| - 1])
  }

  lemma {:induction false} RunConcat(d: Disk, a: seq<Op>, b: seq<Op>)
    ensures Run(d, a + b) == Run(Run(d, a), b)
    decreases |b|
  {
    if b == [] {
      assert a + b == a;
    } else {
      var ops := a + b;
      assert ops[..|ops| - 1] == a + b[..|b| - 1];
      RunConcat(d, a, b[..|b| - 1]);
    }
  }

  lemma RunOne(d: Disk, op: Op)
    ensures Run(d, [op]) == Apply(d, op)
  {
    assert [op][..0] == [];
  }

  // ---- the binary in use ----

  predicate Intact(dir: Dir) { dir.binary.Some? && dir.binary.value.executable }

  /** What bin/xray leads to when it is usable: the link is followed, and a dangling or non-executable target is not
      usable. */
  function Live(d: Disk): Option<int> {
    if d.link.Some? && d.link.value in d.versions && Intact(d.versions[d.link.value])
    then Some(d.versions[d.link.value].binary.value.content) else None
  }

  datatype Resolved = Override(content: int, ownAssets: bool) | Image

  function ResolveOf(d: Disk): Resolved {
    match Live(d) case Some(content) => Override(content, "geoip.dat" in d.geo) case None => Image
  }

  // ---- commitInstall as an ordered list of operations ----

  /** What is installed: a version, its staged binary, the geo files of its archive, and where it came from. */
  datatype Release = Release(version: string, content: int, executable: bool, geoip: Option<int>,
                             geosite: Option<int>, source: string)

  function Staged(r: Release): Blob { Blob(r.content, r.executable) }

  function HeadOps(r: Release, now: int): seq<Op> {
    [DeleteBinary(r.version, now), DeleteDir(r.version), MakeDir(r.version, now), MoveBinary(r.version, Staged(r), now),
     MakeExecutable(r.version), DropTemp, MakeTemp(r.version), Flip]
  }

  function GeoOps(name: string, content: Option<int>): seq<Op> {
    match content case None => [] case Some(c) => [PutGeo(name + ".new", c), RenameGeo(name + ".new", name)]
  }

  function TailOps(r: Release, includeGeo: bool, was: Record): seq<Op> {
    (if includeGeo then GeoOps("geoip.dat", r.geoip) + GeoOps("geosite.dat", r.geosite) else [])
    + [Save(Record(r.version, was.installed, r.source))]
  }

  /** Deleting every listed version but `keep`. */
  function Removals(names: seq<string>, keep: Option<string>, now: int): seq<Op> {
    if names == [] then []
    else Removals(names[..|names| - 1], keep, now) + Removal(names[|names| - 1], keep, now)
  }

  function Removal(name: string, keep: Option<string>, now: int): seq<Op> {
    if Some(name) == keep then [] else [DeleteBinary(name, now), DeleteDir(name)]
  }

  function Beyond(listing: seq<string>): seq<string> { if |listing| <= MAX_KEPT then [] else listing[MAX_KEPT..] }

  function RestOps(r: Release, includeGeo: bool, now: int, was: Record, listing: seq<string>): seq<Op> {
    TailOps(r, includeGeo, was) + Removals(Beyond(listing), Some(r.version), now)
  }

  function CommitOps(r: Release, includeGeo: bool, now: int, was: Record, listing: seq<string>): seq<Op> {
    HeadOps(r, now) + RestOps(r, includeGeo, now, was, listing)
  }

  /** The versions, newest first; the order among equal times is open. */
  ghost predicate IsListing(listing: seq<string>, versions: map<string, Dir>) {
    && (forall i, j :: 0 <= i < j < |listing| ==> listing[i] != listing[j])
    && (forall v :: v in listing <==> v in versions)
    && (forall i, j :: 0 <= i < j < |listing| ==> versions[listing[i]].time >= versions[listing[j]].time)
  }

  ghost function Installed(d: Disk, r: Release, now: int): map<string, Dir> {
    d.versions[r.version := Dir(Some(Blob(r.content, true)), now)]
  }

  // ---- crash points of commitInstall ----

  /** The disk after the first `k` operations of the head. */
  ghost function HeadState(d: Disk, r: Release, now: int, k: nat): Disk {
    var v := r.version;
    var gone := d.versions - {v};
    match k
    case 0 => d
    case 1 => if v in d.versions then SetDir(d, v, Dir(None, now)) else d
    case 2 => d.(versions := gone)
    case 3 => d.(versions := gone[v := Dir(None, now)])
    case 4 => d.(versions := gone[v := Dir(Some(Staged(r)), now)])
    case 5 => d.(versions := Installed(d, r, now))
    case 6 => d.(versions := Installed(d, r, now), temp := None)
    case 7 => d.(versions := Installed(d, r, now), temp := Some(v))
    case _ => d.(versions := Installed(d, r, now), temp := None, link := Some(v))
  }

  lemma HeadStep(d: Disk, r: Release, now: int, k: nat)
    requires k < 8
    ensures Apply(HeadState(d, r, now, k), HeadOps(r, now)[k]) == HeadState(d, r, now, k + 1)
  {
    var gone := d.versions - {r.version};
    assert gone[r.version := Dir(Some(Blob(r.content, true)), now)] == Installed(d, r, now);
    if k == 1 && r.version !in d.versions { assert gone == d.versions; }
    if k == 1 && r.version in d.versions { assert d.versions[r.version := Dir(None, now)] - {r.version} == gone; }
  }

  lemma {:induction false} HeadRuns(d: Disk, r: Release, now: int, k: nat)
    requires k <= 8
    ensures Run(d, HeadOps(r, now)[..k]) == HeadState(d, r, now, k)
  {
    if k == 0 {
    } else {
      HeadRuns(d, r, now, k - 1);
      HeadStep(d, r, now, k - 1);
      assert HeadOps(r, now)[..k][..k - 1] == HeadOps(r, now)[..k - 1];
    }
  }

  /** The operation may change what a link into `v` leads to. */
  predicate Touches(op: Op, v: string) {
    match op
    case DeleteBinary(x, _) => x == v
    case DeleteDir(x) => x == v
    case MakeDir(x, _) => x == v
    case MoveBinary(x, _, _) => x == v
    case MakeExecutable(x) => x == v
    case Flip | DropLink => true
    case _ => false
  }

  ghost predicate Spares(ops: seq<Op>, v: string) { forall i :: 0 <= i < |ops| ==> !Touches(ops[i], v) }

  lemma {:induction false} Untouched(d: Disk, ops: seq<Op>, v: string)
    requires d.link == Some(v) && Spares(ops, v)
    ensures var e := Run(d, ops); e.link == d.link && Live(e) == Live(d)
    ensures var e := Run(d, ops);
            (v in e.versions <==> v in d.versions) && (v in d.versions ==> e.versions[v] == d.versions[v])
    decreases |ops|
  {
    if ops == [] {
    } else {
      SparesPrefix(ops, v, |ops| - 1);
      Untouched(d, ops[..|ops| - 1], v);
    }
  }

  lemma {:induction false} RemovalsSpare(names: seq<string>, keep: string, now: int)
    ensures Spares(Removals(names, Some(keep), now), keep)
  {
    if names == [] {
    } else {
      RemovalsSpare(names[..|names| - 1], keep, now);
    }
  }

  lemma RestSpares(r: Release, includeGeo: bool, now: int, was: Record, listing: seq<string>)
    ensures Spares(RestOps(r, includeGeo, now, was, listing), r.version)
  {
    RemovalsSpare(Beyond(listing), r.version, now);
    assert Spares(TailOps(r, includeGeo, was), r.version);
  }

  lemma SparesPrefix(ops: seq<Op>, v: string, k: nat)
    requires Spares(ops, v) && k <= |ops|
    ensures Spares(ops[..k], v)
  {
  }

  /** After the flip, however far the rest of the installation gets, the new binary is live. */
  lemma LiveAfterFlip(d: Disk, r: Release, includeGeo: bool, now: int, was: Record, listing: seq<string>, k: nat)
    requires 8 <= k <= |CommitOps(r, includeGeo, now, was, listing)|
    ensures var e := Run(d, CommitOps(r, includeGeo, now, was, listing)[..k]);
            e.link == Some(r.version) && Live(e) == Some(r.content)
  {
    var ops := CommitOps(r, includeGeo, now, was, listing);
    var rest := RestOps(r, includeGeo, now, was, listing);
    RestSpares(r, includeGeo, now, was, listing);
    HeadRuns(d, r, now, 8);
    assert HeadOps(r, now)[..8] == HeadOps(r, now);
    assert ops[..k] == HeadOps(r, now) + rest[..k - 8];
    RunConcat(d, HeadOps(r, now), rest[..k - 8]);
    SparesPrefix(rest, r.version, k - 8);
    Untouched(HeadState(d, r, now, 8), rest[..k - 8], r.version);
  }

  /** At every crash point of an installation of a version other than the live one, the link leads to the old binary
      before the flip and to the new one from the flip on. */
  lemma CrashKeepsALiveBinary(d: Disk, r: Release, includeGeo: bool, now: int, was: Record, listing: seq<string>,
                              k: nat)
    requires d.link != Some(r.version) && k <= |CommitOps(r, includeGeo, now, was, listing)|
    ensures Live(Run(d, CommitOps(r, includeGeo, now, was, listing)[..k])) == if k < 8 then Live(d) else Some(r.content)
  {
    if k < 8 {
      assert CommitOps(r, includeGeo, now, was, listing)[..k] == HeadOps(r, now)[..k];
      HeadRuns(d, r, now, k);
    } else {
      LiveAfterFlip(d, r, includeGeo, now, was, listing, k);
    }
  }

  ghost predicate NeverDangles(d: Disk, r: Release, includeGeo: bool, now: int, was: Record, listing: seq<string>) {
    var ops := CommitOps(r, includeGeo, now, was, listing);
    forall k :: 0 <= k <= |ops| ==> Live(Run(d, ops[..k])) == Live(d) || Live(Run(d, ops[..k])) == Some(r.content)
  }

  /** An interrupted installation leaves the old or the new binary live exactly when it does not reinstall the version
      that the link already serves: that one is deleted first, against the comment on commitInstall. */
  lemma NeverDanglesIff(d: Disk, r: Release, includeGeo: bool, now: int, was: Record, listing: seq<string>)
    ensures NeverDangles(d, r, includeGeo, now, was, listing) <==> !(d.link == Some(r.version) && Live(d).Some?)
  {
    var ops := CommitOps(r, includeGeo, now, was, listing);
    if d.link == Some(r.version) && Live(d).Some? {
      assert ops[..1] == HeadOps(r, now)[..1];
      HeadRuns(d, r, now, 1);
      assert Live(Run(d, ops[..1])).None?;
    } else {
      forall k | 0 <= k <= |ops|
        ensures Live(Run(d, ops[..k])) == Live(d) || Live(Run(d, ops[..k])) == Some(r.content)
      {
        if k < 8 {
          assert ops[..k] == HeadOps(r, now)[..k];
          HeadRuns(d, r, now, k);
        } else {
          LiveAfterFlip(d, r, includeGeo, now, was, listing, k);
        }
      }
    }
  }

  // ---- completed operations ----

  lemma TailKeepsTree(d: Disk, r: Release, includeGeo: bool, was: Record)
    ensures var e := Run(d, TailOps(r, includeGeo, was));
            e == d.(geo := e.geo, record := Record(r.version, was.installed, r.source))
  {
    var geo := if includeGeo then GeoOps("geoip.dat", r.geoip) + GeoOps("geosite.dat", r.geosite) else [];
    GeoKeepsTree(d, geo);
    RunConcat(d, geo, [Save(Record(r.version, was.installed, r.source))]);
    RunOne(Run(d, geo), Save(Record(r.version, was.installed, r.source)));
  }

  lemma {:induction false} GeoKeepsTree(d: Disk, ops: seq<Op>)
    requires forall i :: 0 <= i < |ops| ==> ops[i].PutGeo? || ops[i].RenameGeo?
    ensures Run(d, ops) == d.(geo := Run(d, ops).geo)
    decreases |ops|
  {
    if ops == [] {
    } else {
      GeoKeepsTree(d, ops[..|ops| - 1]);
    }
  }

  ghost function Gone(names: seq<string>, keep: Option<string>): set<string> { set v | v in names && Some(v) != keep }

  lemma RemovalRuns(d: Disk, name: string, keep: Option<string>, now: int)
    ensures Run(d, Removal(name, keep, now)) == if Some(name) == keep then d else d.(versions := d.versions - {name})
  {
    if Some(name) != keep {
      var ops := [DeleteBinary(name, now), DeleteDir(name)];
      assert ops[..1] == [DeleteBinary(name, now)];
      RunOne(d, DeleteBinary(name, now));
      assert d.versions[name := Dir(None, now)] - {name} == d.versions - {name};
    }
  }

  lemma {:induction false} RemovalsRun(d: Disk, names: seq<string>, keep: Option<string>, now: int)
    ensures Run(d, Removals(names, keep, now)) == d.(versions := d.versions - Gone(names, keep))
  {
    if names == [] {
      assert d.versions - Gone(names, keep) == d.versions;
    } else {
      var n := |names| - 1;
      RemovalsRun(d, names[..n], keep, now);
      RunConcat(d, Removals(names[..n], keep, now), Removal(names[n], keep, now));
      RemovalRuns(Run(d, Removals(names[..n], keep, now)), names[n], keep, now);
      GoneMore(names, keep);
      DeleteMore(d.versions, Gone(names[..n], keep), names[n]);
    }
  }

  lemma GoneMore(names: seq<string>, keep: Option<string>)
    requires names != []
    ensures var n := |names| - 1;
            Gone(names, keep) == Gone(names[..n], keep) + if Some(names[n]) == keep then {} else {names[n]}
  {
    assert names == names[..|names| - 1] + [names[|names| - 1]];
  }

  lemma DeleteMore(m: map<string, Dir>, gone: set<string>, v: string)
    ensures (m - gone) - {v} == m - (gone + {v})
  {
  }

  /** What a completed installation leaves behind. */
  lemma CommitIs(d: Disk, r: Release, includeGeo: bool, now: int, listing: seq<string>)
    ensures var e := Run(d, CommitOps(r, includeGeo, now, d.record, listing));
            && e.versions == Installed(d, r, now) - Gone(Beyond(listing), Some(r.version))
            && e.link == Some(r.version) && e.temp == None
            && e.record == Record(r.version, d.record.installed, r.source)
  {
    var tail, removals := TailOps(r, includeGeo, d.record), Removals(Beyond(listing), Some(r.version), now);
    HeadRuns(d, r, now, 8);
    assert HeadOps(r, now)[..8] == HeadOps(r, now);
    RunConcat(d, HeadOps(r, now), tail + removals);
    RunConcat(HeadState(d, r, now, 8), tail, removals);
    TailKeepsTree(HeadState(d, r, now, 8), r, includeGeo, d.record);
    RemovalsRun(Run(HeadState(d, r, now, 8), tail), Beyond(listing), Some(r.version), now);
  }

  function RollbackOps(target: string, was: Record): seq<Op> {
    [DropTemp, MakeTemp(target), Flip, Save(Record(target, was.installed, "rollback"))]
  }

  /** The disk after the first `k` operations of a rollback. */
  ghost function RollbackState(d: Disk, target: string, k: nat): Disk {
    match k
    case 0 => d
    case 1 => d.(temp := None)
    case 2 => d.(temp := Some(target))
    case 3 => d.(link := Some(target), temp := None)
    case _ => d.(link := Some(target), temp := None, record := Record(target, d.record.installed, "rollback"))
  }

  lemma RollbackStep(d: Disk, target: string, k: nat)
    requires k < 4
    ensures Apply(RollbackState(d, target, k), RollbackOps(target, d.record)[k]) == RollbackState(d, target, k + 1)
  {
  }

  lemma {:induction false} RollbackRuns(d: Disk, target: string, k: nat)
    requires k <= 4
    ensures Run(d, RollbackOps(target, d.record)[..k]) == RollbackState(d, target, k)
  {
    var ops := RollbackOps(target, d.record);
    if k == 0 {
    } else {
      RollbackRuns(d, target, k - 1);
      RollbackStep(d, target, k - 1);
      assert ops[..k][..k - 1] == ops[..k - 1];
    }
  }

  lemma RollbackIs(d: Disk, target: string)
    ensures Run(d, RollbackOps(target, d.record)) ==
              d.(link := Some(target), temp := None, record := Record(target, d.record.installed, "rollback"))
  {
    RollbackRuns(d, target, 4);
    assert RollbackOps(target, d.record)[..4] == RollbackOps(target, d.record);
  }

  /** RemoveAll on bin/ may meet the link or the temporary link first, and on versions/ any order of its directories. */
  function UnlinkOps(tempFirst: bool): seq<Op> { if tempFirst then [DropTemp, DropLink] else [DropLink, DropTemp] }

  function ResetOps(order: seq<string>, tempFirst: bool, now: int): seq<Op> {
    UnlinkOps(tempFirst) + (Removals(order, None, now) + [ClearGeo, Save(NO_RECORD)])
  }

  /** The operations before the link goes. */
  function BeforeUnlink(tempFirst: bool): nat { if tempFirst then 1 else 0 }

  lemma {:induction false} StaysUnlinked(d: Disk, ops: seq<Op>)
    requires d.link.None? && forall i :: 0 <= i < |ops| ==> !ops[i].Flip?
    ensures Run(d, ops).link.None?
    decreases |ops|
  {
    if ops == [] {
    } else {
      StaysUnlinked(d, ops[..|ops| - 1]);
    }
  }

  lemma Unlinks(d: Disk, tempFirst: bool)
    ensures var ops := UnlinkOps(tempFirst);
            && Run(d, ops[..0]) == d && Run(d, ops[..1]) == Apply(d, ops[0])
            && Run(d, ops) == d.(link := None, temp := None)
  {
    var ops := UnlinkOps(tempFirst);
    assert ops[..1] == [ops[0]];
    RunOne(d, ops[0]);
  }

  /** A reset that is cut short leaves the image in use from the moment the link is gone, and changes nothing before. */
  lemma ResetCrash(d: Disk, order: seq<string>, tempFirst: bool, now: int, k: nat)
    requires k <= |ResetOps(order, tempFirst, now)|
    ensures ResolveOf(Run(d, ResetOps(order, tempFirst, now)[..k])) ==
            if k <= BeforeUnlink(tempFirst) then ResolveOf(d) else Image
  {
    var ops, first := ResetOps(order, tempFirst, now), UnlinkOps(tempFirst);
    var rest := Removals(order, None, now) + [ClearGeo, Save(NO_RECORD)];
    Unlinks(d, tempFirst);
    if k <= 1 {
      assert ops[..k] == first[..k];
    } else {
      assert ops[..k] == first + rest[..k - 2];
      RunConcat(d, first, rest[..k - 2]);
      RemovalsKeepGeo(order, None, now);
      StaysUnlinked(Run(d, first), rest[..k - 2]);
    }
  }

  /** A completed reset that met every version leaves a fresh store. */
  lemma ResetIs(d: Disk, order: seq<string>, tempFirst: bool, now: int)
    requires forall v :: v in d.versions ==> v in order
    ensures Run(d, ResetOps(order, tempFirst, now)) == FRESH
  {
    Unlinks(d, tempFirst);
    RunConcat(d, UnlinkOps(tempFirst), Removals(order, None, now) + [ClearGeo, Save(NO_RECORD)]);
    ClearsAll(d.(link := None, temp := None), order, now);
  }

  lemma ClearsAll(d: Disk, order: seq<string>, now: int)
    requires d.link.None? && d.temp.None? && forall v :: v in d.versions ==> v in order
    ensures Run(d, Removals(order, None, now) + [ClearGeo, Save(NO_RECORD)]) == FRESH
  {
    var mid := d.(versions := d.versions - Gone(order, None));
    RemovalsRun(d, order, None, now);
    AllGone(d.versions, order);
    ClearsRest(mid);
    EndsWith(d, Removals(order, None, now), [ClearGeo, Save(NO_RECORD)], mid);
  }

  lemma ClearsRest(d: Disk)
    requires d.versions == map[] && d.link.None? && d.temp.None?
    ensures Run(d, [ClearGeo, Save(NO_RECORD)]) == FRESH
  {
    RunTwo(d, ClearGeo, Save(NO_RECORD));
  }

  lemma EndsWith(d: Disk, a: seq<Op>, b: seq<Op>, mid: Disk)
    requires Run(d, a) == mid
    ensures Run(d, a + b) == Run(mid, b)
  {
    RunConcat(d, a, b);
  }

  lemma AllGone(versions: map<string, Dir>, order: seq<string>)
    requires forall v :: v in versions ==> v in order
    ensures versions - Gone(order, None) == map[]
  {
  }

  lemma RunTwo(d: Disk, a: Op, b: Op)
    ensures Run(d, [a, b]) == Apply(Apply(d, a), b)
  {
    assert [a, b][..1] == [a];
    RunOne(d, a);
  }

  // ---- the installer ----

  datatype InstallError = NoVersion | InvalidVersion

  predicate TokenChar(c: char) { IsDigit(c) || 'A' <= c <= 'Z' || 'a' <= c <= 'z' || c in "._+-" }

  /** Accepted as one path component. */
  predicate TokenOk(v: string) {
    && 1 <= |v| <= 64 && v != "."
    && (forall i :: 0 <= i < |v| ==> TokenChar(v[i]))
    && (forall i :: 0 < i < |v| ==> v[i] != '.' || v[i - 1] != '.')
  }

  predicate NameChar(c: char) {
    '0' <= c <= '9' || 'A' <= c <= 'Z' || 'a' <= c <= 'z' || c == '-' || c == '_' || c == '+'
  }

  lemma TokenCharIs(c: char)
    ensures TokenChar(c) <==> NameChar(c) || c == '.'
    ensures TokenChar(c) ==> c != '/' && c != '\\' && c != '\0'
  {
    var s := "._+-";
    assert s[0] == '.' && s[1] == '_' && s[2] == '+' && s[3] == '-';
  }

  /** Letters, digits and -_+, with single dots between them or at the end. */
  predicate PlainName(v: string) {
    && 1 <= |v| <= 64 && v[0] != '.'
    && (forall j :: 0 <= j < |v| ==> NameChar(v[j]) || v[j] == '.')
    && forall j, k :: 0 <= j && k == j + 1 < |v| ==> v[j] != '.' || v[k] != '.'
  }

  /** An accepted name is one component of a path, and neither this directory nor the one above; plain names are
      accepted. */
  lemma TokenIsOneComponent(v: string, i: nat)
    ensures TokenOk(v) ==> 1 <= |v| <= 64 && v != "." && v != ".."
    ensures TokenOk(v) && i < |v| ==> v[i] != '/' && v[i] != '\\' && v[i] != '\0'
    ensures TokenOk(v) && i + 1 < |v| ==> !(v[i] == '.' == v[i + 1])
    ensures PlainName(v) ==> TokenOk(v)
  {
    if i < |v| { TokenCharIs(v[i]); }
    if v == ".." { assert v[0] == '.' == v[1]; }
    if i + 1 < |v| && v[i + 1] == '.' == v[i] { assert 0 < i + 1 < |v| && v[i + 1 - 1] == '.'; }
    if PlainName(v) {
      forall j | 0 <= j < |v| ensures TokenChar(v[j]) { TokenCharIs(v[j]); }
      assert v[0] != '.';
    }
  }

  /** Where `v` goes in a newest-first list. */
  ghost predicate Sorted(l: seq<string>, versions: map<string, Dir>) {
    && (forall v :: v in l ==> v in versions)
    && (forall i, j :: 0 <= i < j < |l| ==> l[i] != l[j] && versions[l[i]].time >= versions[l[j]].time)
  }

  lemma SortedCons(v: string, l: seq<string>, versions: map<string, Dir>)
    requires Sorted(l, versions) && v in versions && forall w ::
            w in l ==> w != v && versions[v].time >= versions[w].time
    ensures Sorted([v] + l, versions)
  {
  }

  /** `l` with `v` behind everything that is at least as new. */
  function Insert(l: seq<string>, v: string, versions: map<string, Dir>): (out: seq<string>)
    requires Sorted(l, versions) && v !in l && v in versions
    ensures Sorted(out, versions) && forall w :: w in out <==> w in l || w == v
  {
    if l == [] then [v]
    else
      assert l == [l[0]] + l[1..];
      assert forall w :: w in l[1..] ==> w != l[0] && versions[l[0]].time >= versions[w].time;
      if versions[l[0]].time < versions[v].time then
        SortedCons(v, l, versions);
        [v] + l
      else
        var rest := Insert(l[1..], v, versions);
        SortedCons(l[0], rest, versions);
        [l[0]] + rest
  }

  /** The versions left when the first `i` entries of a listing have been looked at. */
  ghost function Kept(m: map<string, Dir>, items: seq<string>, keep: string, i: nat): map<string, Dir>
    requires i <= |items|
  {
    if i == 0 then m
    else if i <= MAX_KEPT || items[i - 1] == keep then Kept(m, items, keep, i - 1)
    else Kept(m, items, keep, i - 1) - {items[i - 1]}
  }

  lemma GoneBeyond(items: seq<string>, keep: string, i: nat)
    requires 0 < i <= |items|
    ensures Gone(Beyond(items[..i]), Some(keep)) ==
              Gone(Beyond(items[..i - 1]), Some(keep)) +
                  if i <= MAX_KEPT || items[i - 1] == keep then {} else {items[i - 1]}
  {
    if i > MAX_KEPT {
      var b := Beyond(items[..i]);
      assert b[..|b| - 1] == Beyond(items[..i - 1]) && b[|b| - 1] == items[i - 1];
      GoneMore(b, Some(keep));
    }
  }

  lemma {:induction false} KeptIs(m: map<string, Dir>, items: seq<string>, keep: string, i: nat)
    requires i <= |items|
    ensures Kept(m, items, keep, i) == m - Gone(Beyond(items[..i]), Some(keep))
  {
    if i == 0 {
      assert Gone(Beyond(items[..0]), Some(keep)) == {};
    } else {
      var before := Gone(Beyond(items[..i - 1]), Some(keep));
      KeptIs(m, items, keep, i - 1);
      GoneBeyond(items, keep, i);
      DeleteMore(m, before, items[i - 1]);
      assert before + {} == before;
    }
  }

  class Installer {
    var versions: map<string, Dir>
    var link: Option<string>
    var temp: Option<string>
    var geo: map<string, int>
    var record: Record

    ghost function View(): Disk
      reads this
    {
      Disk(versions, link, temp, geo, record)
    }

    constructor ()
      ensures View() == FRESH
    {
      versions, link, temp, geo, record := map[], None, None, map[], NO_RECORD;
    }

    method Resolve() returns (r: Resolved)
      ensures r == ResolveOf(View())
    {
      if link.Some? && link.value in versions {
        var dir := versions[link.value];
        if dir.binary.Some? && dir.binary.value.executable {
          return Override(dir.binary.value.content, "geoip.dat" in geo);
        }
      }
      return Image;
    }

    method ListVersions() returns (listing: seq<string>)
      ensures IsListing(listing, versions)
    {
      listing := [];
      var pending := versions.Keys;
      while pending != {}
        invariant pending <= versions.Keys && Sorted(listing, versions)
        invariant forall v :: v in listing <==> v in versions.Keys - pending
        decreases pending
      {
        var v :| v in pending;
        listing := Insert(listing, v, versions);
        pending := pending - {v};
      }
    }

    /** Deletes the versions beyond the two newest, but never `keep`. */
    method RotateOldVersions(keep: string) returns (ghost listing: seq<string>)
      modifies this`versions
      ensures IsListing(listing, old(versions))
      ensures versions == old(versions) - Gone(Beyond(listing), Some(keep))
    {
      var items := ListVersions();
      listing := items;
      for i := 0 to |items|
        invariant versions == Kept(old(versions), items, keep, i)
      {
        if i < MAX_KEPT { continue; }
        if items[i] == keep { continue; }
        versions := versions - {items[i]};
      }
      KeptIs(old(versions), items, keep, |items|);
      assert items[..|items|] == items;
    }

    /** `detected` is what the staged binary reports as its version, used when the caller names none. */
    method CommitInstall(r: Release, detected: string, includeGeo: bool, now: int)
      returns (err: Option<InstallError>, ghost listing: seq<string>)
      modifies this
      ensures var version := if r.version == "" then detected else r.version;
              if version == "" then err == Some(NoVersion) && View() == old(View())
              else if !TokenOk(version) then err == Some(InvalidVersion) && View() == old(View())
              else
                var r := r.(version := version);
                && err.None? && IsListing(listing, Installed(old(View()), r, now))
                && View() == Run(old(View()), CommitOps(r, includeGeo, now, old(record), listing))
    {
      listing := [];
      var version := r.version;
      if version == "" { version := detected; }
      if version == "" { return Some(NoVersion), []; }
      if !TokenOk(version) { return Some(InvalidVersion), []; }
      var prev := record;
      ghost var named := r.(version := version);
      Stage(version, r.content, r.executable, now);
      temp := None;
      temp := Some(version);
      link, temp := temp, None;
      if includeGeo {
        PutGeo("geoip.dat", r.geoip);
        PutGeo("geosite.dat", r.geosite);
      }
      record := Record(version, prev.installed, r.source);
      listing := RotateOldVersions(version);
      CommitIs(old(View()), named, includeGeo, now, listing);
      CommitGeo(old(View()), named, includeGeo, now, listing);
      return None, listing;
    }

    /** Replaces the directory of the version by one that holds the staged binary, made executable. */
    method Stage(version: string, content: int, executable: bool, now: int)
      modifies this`versions
      ensures versions == old(versions)[version := Dir(Some(Blob(content, true)), now)]
    {
      versions := versions - {version};
      versions := versions[version := Dir(None, now)];
      versions := versions[version := Dir(Some(Blob(content, executable)), now)];
      var staged := versions[version].binary.value;
      versions := versions[version := Dir(Some(staged.(executable := true)), now)];
    }

    /** One geo file, if the archive has it, through a temporary name. */
    method PutGeo(name: string, content: Option<int>)
      requires name + ".new" != name
      modifies this`geo
      ensures geo == WithGeo(old(geo), name, content)
    {
      if content.None? { return; }
      geo := geo[name + ".new" := content.value];
      geo := (geo - {name + ".new"})[name := content.value];
      assert old(geo)[name + ".new" := content.value] - {name + ".new"} == old(geo) - {name + ".new"};
    }

    /** Flips the link to the second newest version, whatever the record says the previous one was. */
    method Rollback() returns (ok: bool, ghost listing: seq<string>)
      modifies this
      ensures IsListing(listing, old(versions)) && ok == (|old(versions)| >= 2) == (|listing| >= 2)
      ensures View() == if ok then Run(old(View()), RollbackOps(listing[1], old(record))) else old(View())
    {
      var items := ListVersions();
      listing := items;
      DistinctLength(items, versions.Keys);
      if |items| < 2 { return false, items; }
      var target := items[1];
      temp := None;
      temp := Some(target);
      link, temp := temp, None;
      record := Record(target, record.installed, "rollback");
      RollbackIs(old(View()), target);
      return true, items;
    }

    method ResetToImage()
      modifies this
      ensures View() == FRESH
    {
      link, temp := None, None;
      versions := map[];
      geo := map[];
      record := NO_RECORD;
    }
  }

  lemma {:induction false} DistinctLength(l: seq<string>, keys: set<string>)
    requires (forall i, j :: 0 <= i < j < |l| ==> l[i] != l[j]) && forall v :: v in l <==> v in keys
    ensures |l| == |keys|
    decreases |l|
  {
    if l == [] {
      assert keys == {};
    } else {
      var n := |l| - 1;
      assert l == l[..n] + [l[n]];
      DistinctLength(l[..n], keys - {l[n]});
    }
  }

  /** The assets after one geo file of a release has been staged and renamed. */
  function WithGeo(geo: map<string, int>, name: string, content: Option<int>): map<string, int> {
    match content case None => geo case Some(c) => (geo - {name + ".new"})[name := c]
  }

  lemma GeoOpsAre(d: Disk, name: string, content: Option<int>)
    requires name + ".new" != name
    ensures Run(d, GeoOps(name, content)).geo == WithGeo(d.geo, name, content)
  {
    if content.Some? {
      var put, rename := PutGeo(name + ".new", content.value), RenameGeo(name + ".new", name);
      assert GeoOps(name, content) == [put] + [rename];
      RunConcat(d, [put], [rename]);
      RunOne(d, put);
      RunOne(Apply(d, put), rename);
      assert d.geo[name + ".new" := content.value] - {name + ".new"} == d.geo - {name + ".new"};
    }
  }

  lemma {:induction false} GeoUntouched(d: Disk, ops: seq<Op>)
    requires NoGeo(ops)
    ensures Run(d, ops).geo == d.geo
    decreases |ops|
  {
    if ops == [] {
    } else {
      GeoUntouched(d, ops[..|ops| - 1]);
    }
  }

  ghost predicate NoGeo(ops: seq<Op>) {
    forall i :: 0 <= i < |ops| ==> !ops[i].PutGeo? && !ops[i].RenameGeo? && !ops[i].ClearGeo?
  }

  lemma GeoInTheMiddle(d: Disk, head: seq<Op>, a: seq<Op>, b: seq<Op>, tail: seq<Op>)
    requires NoGeo(head) && NoGeo(tail)
    ensures Run(d, head).geo == d.geo
    ensures Run(d, head + (a + b + tail)).geo == Run(Run(Run(d, head), a), b).geo
  {
    RunConcat(d, head, a + b + tail);
    RunConcat(Run(d, head), a + b, tail);
    RunConcat(Run(d, head), a, b);
    GeoUntouched(d, head);
    GeoUntouched(Run(Run(d, head), a + b), tail);
  }

  lemma Regroup(geo: seq<Op>, save: seq<Op>, removals: seq<Op>)
    ensures geo + save + removals == geo + (save + removals)
  {
  }

  lemma CommitGeo(d: Disk, r: Release, includeGeo: bool, now: int, listing: seq<string>)
    ensures Run(d, CommitOps(r, includeGeo, now, d.record, listing)).geo ==
              if includeGeo then WithGeo(WithGeo(d.geo, "geoip.dat", r.geoip), "geosite.dat", r.geosite) else d.geo
  {
    var a: seq<Op> := if includeGeo then GeoOps("geoip.dat", r.geoip) else [];
    var b: seq<Op> := if includeGeo then GeoOps("geosite.dat", r.geosite) else [];
    var save := [Save(Record(r.version, d.record.installed, r.source))];
    var removals := Removals(Beyond(listing), Some(r.version), now);
    RemovalsKeepGeo(Beyond(listing), Some(r.version), now);
    Regroup(a + b, save, removals);
    assert !includeGeo ==> a + b == [];
    GeoInTheMiddle(d, HeadOps(r, now), a, b, save + removals);
    var e := Run(d, HeadOps(r, now));
    if includeGeo {
      GeoOpsAre(e, "geoip.dat", r.geoip);
      GeoOpsAre(Run(e, a), "geosite.dat", r.geosite);
    }
  }

  /** What is used once an installation has completed: the new binary, with the store's own assets if it brought or
      already had a geoip file. */
  lemma InstalledResolves(d: Disk, r: Release, includeGeo: bool, now: int, listing: seq<string>)
    ensures ResolveOf(Run(d, CommitOps(r, includeGeo, now, d.record, listing)))
         == Override(r.content, (includeGeo && r.geoip.Some?) || "geoip.dat" in d.geo)
  {
    var ops := CommitOps(r, includeGeo, now, d.record, listing);
    LiveAfterFlip(d, r, includeGeo, now, d.record, listing, |ops|);
    assert ops[..|ops|] == ops;
    CommitGeo(d, r, includeGeo, now, listing);
    assert "geoip.dat" !in {"geoip.dat" + ".new", "geosite.dat" + ".new", "geosite.dat"};
  }

  lemma {:induction false} RemovalsKeepGeo(names: seq<string>, keep: Option<string>, now: int)
    ensures forall i :: 0 <= i < |Removals(names, keep, now)| ==>
              Removals(names, keep, now)[i].DeleteBinary? || Removals(names, keep, now)[i].DeleteDir?
  {
    if names == [] {
    } else {
      RemovalsKeepGeo(names[..|names| - 1], keep, now);
    }
  }
}
