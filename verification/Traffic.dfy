/** The kernel state the commands act on, the command sequence, and the traffic it produces. */
module Traffic {
  import opened Text
  import opened Stack
  import opened Compile
  import opened Bandwidth
  import opened Samples
  import M = Mutate

  // ---- kernel ----

  datatype MarkRule = MarkRule(port: int, mark: int)

  /** An htb class under `parent`; parent 0 is the qdisc itself. Rates are in Mbit/s. */
  datatype Class = Class(parent: int, rate: int)

  datatype FwFilter = FwFilter(mark: int, minor: int)

  datatype Police = Police(port: int, rate: int, burstK: int)

  datatype Root =
    | DefaultQdisc
    | Fq
    | HTB(defaultMinor: int, classes: map<int, Class>, leaves: set<int>, filters: map<int, FwFilter>)
    | OtherQdisc

  /** The table xray_bw, the device's root qdisc and its clsact ingress filters. */
  datatype Kernel = Kernel(table: Option<seq<MarkRule>>, root: Root, ingress: Option<map<int, Police>>)

  datatype Cmd =
    | NftDelete | NftLoad(rules: seq<MarkRule>)
    | DelRoot | DelClsact | ReplaceRootFq | AddRootHTB(defaultMinor: int) | AddClsact
    | ReplaceClass(parent: int, minor: int, rate: int) | LeafFq(minor: int)
    | FilterFw(prio: int, mark: int, minor: int) | FilterPolice(prio: int, port: int, rate: int, burstK: int)

  datatype Command = Command(cmd: Cmd, ignoreError: bool)

  /** The effect of one command; None when it fails and leaves the kernel alone. Loading a script adds to the table. */
  function Exec(k: Kernel, c: Cmd): Option<Kernel> {
    match c
    case NftDelete => if k.table.Some? then Some(k.(table := None)) else None
    case NftLoad(rules) => Some(k.(table := Some((if k.table.Some? then k.table.value else []) + rules)))
    case DelRoot => if k.root.DefaultQdisc? then None else Some(k.(root := DefaultQdisc))
    case DelClsact => if k.ingress.Some? then Some(k.(ingress := None)) else None
    case ReplaceRootFq => Some(k.(root := Fq))
    case AddRootHTB(m) => if k.root.DefaultQdisc? then Some(k.(root := HTB(m, map[], {}, map[]))) else None
    case AddClsact => if k.ingress.None? then Some(k.(ingress := Some(map[]))) else None
    case ReplaceClass(parent, minor, rate) =>
      if k.root.HTB? && (parent == 0 || parent in k.root.classes)
      then Some(k.(root := k.root.(classes := k.root.classes[minor := Class(parent, rate)]))) else None
    case LeafFq(minor) =>
      if k.root.HTB? && minor in k.root.classes then Some(k.(root := k.root.(leaves := k.root.leaves + {minor})))
      else None
    case FilterFw(prio, mark, minor) =>
      if k.root.HTB? then Some(k.(root := k.root.(filters := k.root.filters[prio := FwFilter(mark, minor)]))) else None
    case FilterPolice(prio, port, rate, burst) =>
      if k.ingress.Some? then Some(k.(ingress := Some(k.ingress.value[prio := Police(port, rate, burst)]))) else None
  }

  /** Run commands in order, stopping at the first failure that is not ignored: (state, number run without stopping). */
  function RunFrom(k: Kernel, cmds: seq<Command>): (r: (Kernel, nat))
    ensures r.1 <= |cmds|
    decreases |cmds|
  {
    if cmds == [] then (k, 0)
    else match Exec(k, cmds[0].cmd)
    case Some(k') => var r := RunFrom(k', cmds[1..]); (r.0, r.1 + 1)
    case None => if cmds[0].ignoreError then (var r := RunFrom(k, cmds[1..]); (r.0, r.1 + 1)) else (k, 0)
  }

  lemma {:induction false} RunConcat(k: Kernel, a: seq<Command>, b: seq<Command>)
    requires RunFrom(k, a).1 == |a|
    ensures RunFrom(k, a + b) == (RunFrom(RunFrom(k, a).0, b).0, |a| + RunFrom(RunFrom(k, a).0, b).1)
    decreases |a|
  {
    if a == [] {
      assert a + b == b;
    } else {
      assert (a + b)[0] == a[0] && (a + b)[1..] == a[1..] + b;
      match Exec(k, a[0].cmd)
      case Some(k') => RunConcat(k', a[1..], b);
      case None => RunConcat(k, a[1..], b);
    }
  }

  // ---- the command sequence ----

  const BASE_MARK := 41000
  const BASE_CLASS := 100
  const DEFAULT_MINOR := 999
  const DEFAULT_RATE := 1000

  function Mark(i: nat): int { BASE_MARK + i + 1 }

  function Minor(i: nat): int { BASE_CLASS + i + 1 }

  function Prio(i: nat): int { 100 + i + 1 }

  function BurstK(up: int): int { if up * 128 > 64 then up * 128 else 64 }

  ghost function NFTScript(limits: seq<Limit>): seq<MarkRule> {
    seq(|limits|, i requires 0 <= i < |limits| => MarkRule(limits[i].port, Mark(i)))
  }

  function Must(c: Cmd): Command { Command(c, false) }

  function Try(c: Cmd): Command { Command(c, true) }

  ghost function Prologue(limits: seq<Limit>): seq<Command> {
    [Try(NftDelete), Must(NftLoad(NFTScript(limits))), Try(DelRoot), Try(DelClsact), Must(AddRootHTB(DEFAULT_MINOR)),
     Must(ReplaceClass(0, 1, DEFAULT_RATE)), Must(ReplaceClass(1, DEFAULT_MINOR, DEFAULT_RATE)),
     Must(LeafFq(DEFAULT_MINOR)), Must(AddClsact)]
  }

  function LimitCommands(l: Limit, i: nat): seq<Command> {
    (if l.down > 0 then
       [Must(ReplaceClass(1, Minor(i), l.down)), Must(LeafFq(Minor(i))), Must(FilterFw(Prio(i), Mark(i), Minor(i)))]
     else [])
    + (if l.up > 0 then [Must(FilterPolice(Prio(i), l.port, l.up, BurstK(l.up)))] else [])
  }

  ghost function CommandsUpTo(limits: seq<Limit>, n: nat): seq<Command>
    requires n <= |limits|
  {
    if n == 0 then Prologue(limits) else CommandsUpTo(limits, n - 1) + LimitCommands(limits[n - 1], n - 1)
  }

  const CLEANUP := [Try(NftDelete), Try(DelRoot), Try(DelClsact), Must(ReplaceRootFq)]

  ghost function Commands(limits: seq<Limit>): seq<Command> {
    if limits == [] then CLEANUP else CommandsUpTo(limits, |limits|)
  }

  method BuildNFTScript(limits: seq<Limit>) returns (rules: seq<MarkRule>)
    ensures rules == NFTScript(limits)
  {
    rules := [];
    for i := 0 to |limits|
      invariant rules == NFTScript(limits)[..i]
    {
      rules := rules + [MarkRule(limits[i].port, BASE_MARK + i + 1)];
    }
  }

  method ApplyCommands(limits: seq<Limit>) returns (commands: seq<Command>)
    ensures commands == Commands(limits)
  {
    commands := [Try(NftDelete)];
    if |limits| == 0 {
      commands := commands + [Try(DelRoot), Try(DelClsact), Must(ReplaceRootFq)];
      return;
    }
    var script := BuildNFTScript(limits);
    commands := commands + [
      Must(NftLoad(script)), Try(DelRoot), Try(DelClsact), Must(AddRootHTB(DEFAULT_MINOR)),
      Must(ReplaceClass(0, 1, DEFAULT_RATE)), Must(ReplaceClass(1, DEFAULT_MINOR, DEFAULT_RATE)),
      Must(LeafFq(DEFAULT_MINOR)), Must(AddClsact)];
    for i := 0 to |limits|
      invariant commands == CommandsUpTo(limits, i)
    {
      var limit := limits[i];
      var mark, classID, prio := BASE_MARK + i + 1, BASE_CLASS + i + 1, 100 + i + 1;
      ghost var before := commands;
      if limit.down > 0 {
        commands := commands + [
          Must(ReplaceClass(1, classID, limit.down)), Must(LeafFq(classID)), Must(FilterFw(prio, mark, classID))];
      }
      if limit.up > 0 {
        commands := commands + [
          Must(FilterPolice(prio, limit.port, limit.up, if 64 >= limit.up * 128 then 64 else limit.up * 128))];
      }
      assert commands == before + LimitCommands(limit, i);
    }
  }

  ghost function Bare(cmds: seq<Command>): seq<Cmd> { seq(|cmds|, i requires 0 <= i < |cmds| => cmds[i].cmd) }

  lemma BareConcat(a: seq<Command>, b: seq<Command>)
    ensures Bare(a + b) == Bare(a) + Bare(b)
  {
  }

  /** The preview shown in the panel: the applied commands, less the initial table deletion when there are limits. */
  method TCCommands(limits: seq<Limit>) returns (preview: seq<Cmd>)
    ensures Bare(Commands(limits)) == if limits == [] then preview else [NftDelete] + preview
  {
    if |limits| == 0 {
      preview := [NftDelete, DelRoot, DelClsact, ReplaceRootFq];
      return;
    }
    var script := BuildNFTScript(limits);
    preview := [
      NftLoad(script), DelRoot, DelClsact, AddRootHTB(DEFAULT_MINOR), ReplaceClass(0, 1, DEFAULT_RATE),
      ReplaceClass(1, DEFAULT_MINOR, DEFAULT_RATE), LeafFq(DEFAULT_MINOR), AddClsact];
    for i := 0 to |limits|
      invariant [NftDelete] + preview == Bare(CommandsUpTo(limits, i))
    {
      var limit := limits[i];
      var mark, classID := BASE_MARK + i + 1, BASE_CLASS + i + 1;
      ghost var before := preview;
      if limit.down > 0 {
        preview := preview
          + [ReplaceClass(1, classID, limit.down), LeafFq(classID), FilterFw(100 + i + 1, mark, classID)];
      }
      if limit.up > 0 {
        preview := preview
          + [FilterPolice(100 + i + 1, limit.port, limit.up, if 64 >= limit.up * 128 then 64 else limit.up * 128)];
      }
      assert preview == before + Bare(LimitCommands(limit, i));
      BareConcat(CommandsUpTo(limits, i), LimitCommands(limit, i));
    }
  }

  class Host {
    var kernel: Kernel

    constructor (k: Kernel)
      ensures kernel == k
    {
      kernel := k;
    }

    /** Manager.Apply: run the commands, recording each one before it is run. */
    method Apply(limits: seq<Limit>) returns (ran: seq<Cmd>, applied: bool)
      modifies this
      ensures var r := RunFrom(old(kernel), Commands(limits));
              && kernel == r.0 && (applied <==> r.1 == |Commands(limits)|)
              && ran == Bare(Commands(limits))[..if applied then r.1 else r.1 + 1]
    {
      var commands := ApplyCommands(limits);
      ran := [];
      for i := 0 to |commands|
        invariant ran == Bare(commands)[..i]
        invariant RunFrom(old(kernel), commands)
                == (RunFrom(kernel, commands[i..]).0, i + RunFrom(kernel, commands[i..]).1)
      {
        assert commands[i..][0] == commands[i] && commands[i..][1..] == commands[i + 1..];
        ran := ran + [commands[i].cmd];
        var after := Exec(kernel, commands[i].cmd);
        if after.Some? {
          kernel := after.value;
        } else if !commands[i].ignoreError {
          return ran, false;
        }
      }
      return ran, true;
    }
  }

  // ---- the tree that results ----

  function DownClasses(limits: seq<Limit>, n: nat): map<int, Class>
    requires n <= |limits|
  {
    if n == 0 then map[1 := Class(0, DEFAULT_RATE), DEFAULT_MINOR := Class(1, DEFAULT_RATE)]
    else if limits[n - 1].down > 0 then DownClasses(limits, n - 1)[Minor(n - 1) := Class(1, limits[n - 1].down)]
    else DownClasses(limits, n - 1)
  }

  function Leaves(limits: seq<Limit>, n: nat): set<int>
    requires n <= |limits|
  {
    if n == 0 then {DEFAULT_MINOR}
    else if limits[n - 1].down > 0 then Leaves(limits, n - 1) + {Minor(n - 1)} else Leaves(limits, n - 1)
  }

  function Filters(limits: seq<Limit>, n: nat): map<int, FwFilter>
    requires n <= |limits|
  {
    if n == 0 then map[]
    else if limits[n - 1].down > 0 then Filters(limits, n - 1)[Prio(n - 1) := FwFilter(Mark(n - 1), Minor(n - 1))]
    else Filters(limits, n - 1)
  }

  function Policers(limits: seq<Limit>, n: nat): map<int, Police>
    requires n <= |limits|
  {
    if n == 0 then map[]
    else if limits[n - 1].up > 0
      then
        var l := limits[n - 1];
        Policers(limits, n - 1)[Prio(n - 1) := Police(l.port, l.up, BurstK(l.up))]
    else Policers(limits, n - 1)
  }

  ghost function Built(limits: seq<Limit>, n: nat): Kernel
    requires n <= |limits|
  {
    Kernel(Some(NFTScript(limits)),
           HTB(DEFAULT_MINOR, DownClasses(limits, n), Leaves(limits, n), Filters(limits, n)),
           Some(Policers(limits, n)))
  }

  lemma RunPrologue(k: Kernel, limits: seq<Limit>)
    ensures RunFrom(k, Prologue(limits)) == (Built(limits, 0), 9)
  {
    var p := Prologue(limits);
    var clean := Kernel(Some(NFTScript(limits)), DefaultQdisc, None);
    assert p == p[..4] + p[4..];
    ClearFirst(k, limits);
    RunConcat(k, p[..4], p[4..]);
    assert p[4..] == [p[4], p[5], p[6], p[7], p[8]];
    BuildBase(limits);
  }

  lemma ClearFirst(k: Kernel, limits: seq<Limit>)
    ensures RunFrom(k, Prologue(limits)[..4]) == (Kernel(Some(NFTScript(limits)), DefaultQdisc, None), 4)
  {
    var p := Prologue(limits)[..4];
    var script := NFTScript(limits);
    assert [] + script == script;
    var k1 := k.(table := None);
    var k2 := k.(table := Some(script));
    var k3 := k2.(root := DefaultQdisc);
    var k4 := k3.(ingress := None);
    assert RunFrom(k4, p[4..]) == (k4, 0);
    assert p[3..][0] == Try(DelClsact) && p[3..][1..] == p[4..];
    assert RunFrom(k3, p[3..]) == (k4, 1);
    assert p[2..][0] == Try(DelRoot) && p[2..][1..] == p[3..];
    assert RunFrom(k2, p[2..]) == (k4, 2);
    assert p[1..][0] == Must(NftLoad(script)) && p[1..][1..] == p[2..];
    assert RunFrom(k1, p[1..]) == (k4, 3);
  }

  lemma BuildBase(limits: seq<Limit>)
    ensures RunFrom(Kernel(Some(NFTScript(limits)), DefaultQdisc, None), Prologue(limits)[4..]) == (Built(limits, 0), 5)
  {
    var p := Prologue(limits)[4..];
    var k0 := Kernel(Some(NFTScript(limits)), DefaultQdisc, None);
    var k1 := k0.(root := HTB(DEFAULT_MINOR, map[], {}, map[]));
    var k2 := k0.(root := HTB(DEFAULT_MINOR, map[1 := Class(0, DEFAULT_RATE)], {}, map[]));
    var k3 := k0.(root := HTB(DEFAULT_MINOR, DownClasses(limits, 0), {}, map[]));
    var k4 := k0.(root := HTB(DEFAULT_MINOR, DownClasses(limits, 0), {DEFAULT_MINOR}, map[]));
    var k5 := k4.(ingress := Some(map[]));
    assert RunFrom(k5, p[5..]) == (k5, 0);
    assert p[4..][0] == Must(AddClsact) && p[4..][1..] == p[5..];
    assert RunFrom(k4, p[4..]) == (k5, 1);
    assert p[3..][0] == Must(LeafFq(DEFAULT_MINOR)) && p[3..][1..] == p[4..];
    var none: set<int> := {};
    assert none + {DEFAULT_MINOR} == {DEFAULT_MINOR} && DEFAULT_MINOR in DownClasses(limits, 0);
    assert Exec(k3, LeafFq(DEFAULT_MINOR)) == Some(k4);
    assert RunFrom(k3, p[3..]) == (k5, 2);
    assert p[2..][0] == Must(ReplaceClass(1, DEFAULT_MINOR, DEFAULT_RATE)) && p[2..][1..] == p[3..];
    assert RunFrom(k2, p[2..]) == (k5, 3);
    assert p[1..][0] == Must(ReplaceClass(0, 1, DEFAULT_RATE)) && p[1..][1..] == p[2..];
    assert RunFrom(k1, p[1..]) == (k5, 4);
  }

  lemma {:induction false} RootClassStays(limits: seq<Limit>, n: nat)
    requires n <= |limits|
    ensures 1 in DownClasses(limits, n) && DEFAULT_MINOR in DownClasses(limits, n)
  {
    if n == 0 {
    } else {
      RootClassStays(limits, n - 1);
    }
  }

  function DownCommands(l: Limit, i: nat): seq<Command> {
    if l.down > 0 then
      [Must(ReplaceClass(1, Minor(i), l.down)), Must(LeafFq(Minor(i))), Must(FilterFw(Prio(i), Mark(i), Minor(i)))]
    else []
  }

  lemma RunDown(limits: seq<Limit>, n: nat)
    requires 0 < n <= |limits|
    ensures var k, downs := Built(limits, n - 1), DownCommands(limits[n - 1], n - 1);
            RunFrom(k, downs) == (Kernel(k.table, Built(limits, n).root, k.ingress), |downs|)
  {
    RootClassStays(limits, n - 1);
    var l, k := limits[n - 1], Built(limits, n - 1);
    if l.down > 0 {
      var downs, mid := DownCommands(l, n - 1), Kernel(k.table, Built(limits, n).root, k.ingress);
      var k1 := k.(root := k.root.(classes := DownClasses(limits, n)));
      var k2 := k1.(root := k1.root.(leaves := Leaves(limits, n)));
      assert downs[2..][1..] == [] && downs[1..][1..] == downs[2..];
      assert RunFrom(k2, downs[2..]) == (mid, 1);
      assert RunFrom(k1, downs[1..]) == (mid, 2);
    }
  }

  lemma RunLimit(limits: seq<Limit>, n: nat)
    requires 0 < n <= |limits|
    ensures var cmds := LimitCommands(limits[n - 1], n - 1);
            RunFrom(Built(limits, n - 1), cmds) == (Built(limits, n), |cmds|)
  {
    var l, i, k := limits[n - 1], n - 1, Built(limits, n - 1);
    RunDown(limits, n);
    RunConcat(k, DownCommands(l, i),
              if l.up > 0 then [Must(FilterPolice(Prio(i), l.port, l.up, BurstK(l.up)))] else []);
  }

  lemma {:induction false} RunUpTo(k: Kernel, limits: seq<Limit>, n: nat)
    requires n <= |limits|
    ensures RunFrom(k, CommandsUpTo(limits, n)) == (Built(limits, n), |CommandsUpTo(limits, n)|)
  {
    if n == 0 {
      RunPrologue(k, limits);
    } else {
      RunUpTo(k, limits, n - 1);
      RunLimit(limits, n);
      RunConcat(k, CommandsUpTo(limits, n - 1), LimitCommands(limits[n - 1], n - 1));
    }
  }

  // ---- what happens to a packet ----

  /** The mark of an unmarked packet leaving from a port: every matching rule overwrites the mark. */
  ghost function MarkFor(rules: seq<MarkRule>, port: int): int {
    if rules == [] then 0
    else if rules[|rules| - 1].port == port then rules[|rules| - 1].mark
    else MarkFor(rules[..|rules| - 1], port)
  }

  /** The minor of the class a marked packet lands in: the matching filter of lowest preference, or the default. */
  ghost predicate LandsIn(root: Root, mark: int, minor: int)
    requires root.HTB?
  {
    if exists p :: p in root.filters && root.filters[p].mark == mark then
      exists p :: p in root.filters && root.filters[p] == FwFilter(mark, minor)
                  && forall q :: q in root.filters && root.filters[q].mark == mark ==> p <= q
    else minor == root.defaultMinor
  }

  /** A packet leaving from `port` lands in class `minor`. */
  ghost predicate Lands(k: Kernel, port: int, minor: int) {
    k.table.Some? && k.root.HTB? && LandsIn(k.root, MarkFor(k.table.value, port), minor)
  }

  /** Packets leaving from `port`, and no others, land in a class of rate `rate`, which is not the default class. */
  ghost predicate HasOwnClass(k: Kernel, port: int, rate: int) {
    exists minor ::
      && Lands(k, port, minor) && minor != k.root.defaultMinor
      && minor in k.root.classes && k.root.classes[minor].rate == rate
      && forall other :: other != port ==> !Lands(k, other, minor)
  }

  /** Packets leaving from `port` land in the default class. */
  ghost predicate GetsDefault(k: Kernel, port: int, rate: int) {
    && k.root.HTB? && Lands(k, port, k.root.defaultMinor)
    && k.root.defaultMinor in k.root.classes && k.root.classes[k.root.defaultMinor].rate == rate
  }

  /** A burst in kilobytes: what `rate` Mbit/s carry in a second, counted as 128 kB to the megabit, but 64 at least. */
  ghost predicate BurstFor(rate: int, burstK: int) {
    burstK >= 64 && burstK >= 128 * rate && (burstK == 64 || burstK == 128 * rate)
  }

  /** Ingress traffic to `port` meets a policer of rate `rate`, and no other. */
  ghost predicate PolicedAt(k: Kernel, port: int, rate: int) {
    && k.ingress.Some?
    && (exists p :: p in k.ingress.value && k.ingress.value[p].port == port)
    && forall p :: p in k.ingress.value && k.ingress.value[p].port == port ==>
         k.ingress.value[p].rate == rate && BurstFor(rate, k.ingress.value[p].burstK)
  }

  ghost predicate Unpoliced(k: Kernel, port: int) {
    k.ingress.Some? && forall p :: p in k.ingress.value ==> k.ingress.value[p].port != port
  }

  /** The 899th limited user limits downloads, and so takes over the default class. */
  predicate TakesDefault(limits: seq<Limit>) { |limits| >= 899 && limits[898].down > 0 }

  /** The rate that the default class ends up with: the 899th limited user's class is the default class. */
  function DefaultRateAfter(limits: seq<Limit>): int {
    if TakesDefault(limits) then limits[898].down else DEFAULT_RATE
  }

  lemma {:induction false} MarkOfPort(limits: seq<Limit>, n: nat, port: int)
    requires n <= |limits| && GoodLimits(limits)
    ensures forall i :: 0 <= i < n && limits[i].port == port ==> MarkFor(NFTScript(limits)[..n], port) == Mark(i)
    ensures (forall i :: 0 <= i < n ==> limits[i].port != port) ==> MarkFor(NFTScript(limits)[..n], port) == 0
  {
    if n == 0 {
    } else {
      MarkOfPort(limits, n - 1, port);
      assert NFTScript(limits)[..n][..n - 1] == NFTScript(limits)[..n - 1];
    }
  }

  lemma {:induction false} ClassRates(limits: seq<Limit>, n: nat)
    requires n <= |limits|
    ensures forall i :: 0 <= i < n && limits[i].down > 0 ==>
              Minor(i) in DownClasses(limits, n) && DownClasses(limits, n)[Minor(i)].rate == limits[i].down
    ensures DEFAULT_MINOR in DownClasses(limits, n)
    ensures DownClasses(limits, n)[DEFAULT_MINOR].rate == DefaultRateAfter(limits[..n])
  {
    if n == 0 {
    } else {
      ClassRates(limits, n - 1);
    }
  }

  lemma {:induction false} FiltersAre(limits: seq<Limit>, n: nat, p: int)
    requires n <= |limits|
    ensures p in Filters(limits, n) <==> 101 <= p <= 100 + n && limits[p - 101].down > 0
    ensures p in Filters(limits, n) ==> Filters(limits, n)[p] == FwFilter(Mark(p - 101), Minor(p - 101))
  {
    if n == 0 {
    } else {
      FiltersAre(limits, n - 1, p);
    }
  }

  lemma {:induction false} PolicersAre(limits: seq<Limit>, n: nat, p: int)
    requires n <= |limits|
    ensures p in Policers(limits, n) <==> 101 <= p <= 100 + n && limits[p - 101].up > 0
    ensures p in Policers(limits, n) ==>
              Policers(limits, n)[p] == Police(limits[p - 101].port, limits[p - 101].up, BurstK(limits[p - 101].up))
  {
    if n == 0 {
    } else {
      PolicersAre(limits, n - 1, p);
    }
  }

  /** Running the emitted commands from any kernel state succeeds and leaves exactly the tree built from the limits. */
  lemma CommandsBuild(k: Kernel, limits: seq<Limit>)
    requires limits != []
    ensures RunFrom(k, Commands(limits)) == (Built(limits, |limits|), |Commands(limits)|)
  {
    RunUpTo(k, limits, |limits|);
  }

  /** Without limits they leave no table, no ingress filters and a plain fq root. */
  lemma CleanupCleans(k: Kernel)
    ensures RunFrom(k, Commands([])) == (Kernel(None, Fq, None), 4)
  {
    var k1 := k.(table := None);
    var k2 := k1.(root := DefaultQdisc);
    var k3 := k2.(ingress := None);
    assert CLEANUP[1..][0] == Try(DelRoot) && CLEANUP[1..][1..] == CLEANUP[2..];
    assert CLEANUP[2..][0] == Try(DelClsact) && CLEANUP[2..][1..] == CLEANUP[3..];
    assert CLEANUP[3..][0] == Must(ReplaceRootFq) && CLEANUP[3..][1..] == CLEANUP[4..];
    assert RunFrom(k3, CLEANUP[3..]) == (k3.(root := Fq), 1);
    assert RunFrom(k2, CLEANUP[2..]) == (k3.(root := Fq), 2);
    assert RunFrom(k1, CLEANUP[1..]) == (k3.(root := Fq), 3);
  }

  lemma OnlyOwnFilter(limits: seq<Limit>, mark: int)
    ensures forall p ::
            p in Filters(limits, |limits|) && Filters(limits, |limits|)[p].mark == mark ==> p == mark - BASE_MARK + 100
  {
    forall p | p in Filters(limits, |limits|) && Filters(limits, |limits|)[p].mark == mark
      ensures p == mark - BASE_MARK + 100
    {
      FiltersAre(limits, |limits|, p);
    }
  }

  /** Traffic leaving a download-limited user's port lands in the user's class, of exactly the user's rate. */
  lemma DownloadsAreShaped(limits: seq<Limit>, i: nat)
    requires GoodLimits(limits) && i < |limits| && limits[i].down > 0
    ensures var k := Built(limits, |limits|);
            && Lands(k, limits[i].port, Minor(i))
            && Minor(i) in k.root.classes && k.root.classes[Minor(i)].rate == limits[i].down
  {
    var k := Built(limits, |limits|);
    MarkOfPort(limits, |limits|, limits[i].port);
    assert NFTScript(limits)[..|limits|] == NFTScript(limits);
    ClassRates(limits, |limits|);
    FiltersAre(limits, |limits|, Prio(i));
    OnlyOwnFilter(limits, Mark(i));
    assert k.root.filters[Prio(i)] == FwFilter(Mark(i), Minor(i));
  }

  /** All other traffic (no limit on the port, or a limit on uploads only) lands in the default class. */
  lemma OthersGetDefault(limits: seq<Limit>, port: int)
    requires GoodLimits(limits) && forall i :: 0 <= i < |limits| && limits[i].port == port ==> limits[i].down <= 0
    ensures GetsDefault(Built(limits, |limits|), port, DefaultRateAfter(limits))
  {
    var k := Built(limits, |limits|);
    MarkOfPort(limits, |limits|, port);
    assert NFTScript(limits)[..|limits|] == NFTScript(limits);
    var mark := MarkFor(k.table.value, port);
    ClassRates(limits, |limits|);
    assert limits[..|limits|] == limits;
    forall p | p in k.root.filters ensures k.root.filters[p].mark != mark {
      FiltersAre(limits, |limits|, p);
    }
  }

  /** A packet lands in one class. */
  lemma LandsOnce(k: Kernel, port: int, m: int, n: int)
    requires Lands(k, port, m) && Lands(k, port, n)
    ensures m == n
  {
    var mark := MarkFor(k.table.value, port);
    if exists p :: p in k.root.filters && k.root.filters[p].mark == mark {
      var p :| p in k.root.filters && k.root.filters[p] == FwFilter(mark, m)
               && forall q :: q in k.root.filters && k.root.filters[q].mark == mark ==> p <= q;
      var q :| q in k.root.filters && k.root.filters[q] == FwFilter(mark, n)
               && forall r :: r in k.root.filters && k.root.filters[r].mark == mark ==> q <= r;
      assert p == q;
    }
  }

  lemma OwnClassHeld(limits: seq<Limit>, i: nat)
    requires GoodLimits(limits) && !TakesDefault(limits) && i < |limits| && limits[i].down > 0
    ensures HasOwnClass(Built(limits, |limits|), limits[i].port, limits[i].down)
  {
    var k := Built(limits, |limits|);
    DownloadsAreShaped(limits, i);
    forall other | other != limits[i].port ensures !Lands(k, other, Minor(i)) {
      if Lands(k, other, Minor(i)) {
        if j :| 0 <= j < |limits| && limits[j].port == other && limits[j].down > 0 {
          DownloadsAreShaped(limits, j);
          LandsOnce(k, other, Minor(i), Minor(j));
        } else {
          OthersGetDefault(limits, other);
          LandsOnce(k, other, Minor(i), DEFAULT_MINOR);
        }
      }
    }
    assert Lands(k, limits[i].port, Minor(i)) && Minor(i) != DEFAULT_MINOR;
  }

  /** Every download-limited user has a class to himself, different from the default one, exactly when no 899th user
      takes the default class over. */
  lemma OwnClassesIff(limits: seq<Limit>)
    requires GoodLimits(limits)
    ensures (forall i ::
            0 <= i < |limits| && limits[i].down > 0 ==>
              HasOwnClass(Built(limits, |limits|), limits[i].port, limits[i].down))
            <==> !TakesDefault(limits)
  {
    if TakesDefault(limits) {
      var k, port := Built(limits, |limits|), limits[898].port;
      DownloadsAreShaped(limits, 898);
      if HasOwnClass(k, port, limits[898].down) {
        var minor :| Lands(k, port, minor) && minor != k.root.defaultMinor;
        LandsOnce(k, port, minor, DEFAULT_MINOR);
      }
    } else {
      forall i | 0 <= i < |limits| && limits[i].down > 0
        ensures HasOwnClass(Built(limits, |limits|), limits[i].port, limits[i].down)
      {
        OwnClassHeld(limits, i);
      }
    }
  }

  /** On any kernel, the default class ends up with its full rate exactly when no 899th user takes it over with
      another. */
  lemma DefaultKeepsRateIff(k: Kernel, limits: seq<Limit>)
    requires limits != []
    ensures var r := RunFrom(k, Commands(limits)).0;
            && r.root.HTB? && r.root.defaultMinor in r.root.classes
            && (r.root.classes[r.root.defaultMinor].rate == 1000
                <==> |limits| <= 898 || limits[898].down <= 0 || limits[898].down == 1000)
  {
    CommandsBuild(k, limits);
    ClassRates(limits, |limits|);
    assert limits[..|limits|] == limits;
  }

  /** Two ports are never given the same mark. */
  lemma MarksAreDistinct(limits: seq<Limit>, p: int, q: int)
    requires GoodLimits(limits) && p != q
    ensures MarkFor(NFTScript(limits), p) == MarkFor(NFTScript(limits), q) ==> MarkFor(NFTScript(limits), p) == 0
  {
    MarkOfPort(limits, |limits|, p);
    MarkOfPort(limits, |limits|, q);
    assert NFTScript(limits)[..|limits|] == NFTScript(limits);
  }

  /** Ingress traffic to a port is policed at the user's upload rate, and not at all without one. */
  lemma UploadsArePoliced(limits: seq<Limit>, port: int)
    requires GoodLimits(limits)
    ensures forall i :: 0 <= i < |limits| && limits[i].port == port && limits[i].up > 0 ==>
              PolicedAt(Built(limits, |limits|), port, limits[i].up)
    ensures (forall i :: 0 <= i < |limits| && limits[i].port == port ==> limits[i].up <= 0) ==>
              Unpoliced(Built(limits, |limits|), port)
  {
    var k := Built(limits, |limits|);
    forall p ensures p in k.ingress.value <==> 101 <= p <= 100 + |limits| && limits[p - 101].up > 0 {
      PolicersAre(limits, |limits|, p);
    }
    forall p | p in k.ingress.value
      ensures k.ingress.value[p] == Police(limits[p - 101].port, limits[p - 101].up, BurstK(limits[p - 101].up))
    {
      PolicersAre(limits, |limits|, p);
    }
    forall i | 0 <= i < |limits| && limits[i].port == port && limits[i].up > 0
      ensures PolicedAt(k, port, limits[i].up)
    {
      assert Prio(i) in k.ingress.value;
    }
  }

  lemma LimitFromUser(c: Config, limits: seq<Limit>, u: User)
    requires multiset(limits) == multiset(LimitsOf(c.users)) && u in c.users && IsLimited(u)
    ensures LimitOf(u) in limits
  {
    var l := LimitedUsers(c.users);
    assert u in l;
    var j :| 0 <= j < |l| && l[j] == u;
    assert LimitsOf(c.users)[j] == LimitOf(u);
    assert LimitOf(u) in multiset(limits);
  }

  lemma UserFromLimit(c: Config, limits: seq<Limit>, i: nat)
    requires multiset(limits) == multiset(LimitsOf(c.users)) && i < |limits|
    ensures exists u :: u in c.users && IsLimited(u) && limits[i] == LimitOf(u)
  {
    assert limits[i] in multiset(LimitsOf(c.users));
    var j :| 0 <= j < |LimitsOf(c.users)| && LimitsOf(c.users)[j] == limits[i];
    assert LimitedUsers(c.users)[j] in LimitedUsers(c.users);
  }

  /** The limits of a user are enforced: an own class of the download rate if there is one and the default class
      otherwise, and policing at the upload rate if there is one. */
  ghost predicate Enforced(k: Kernel, u: User) {
    && (u.downloadMbps > 0 ==> HasOwnClass(k, u.bandwidthPort, u.downloadMbps))
    && (u.downloadMbps <= 0 ==> GetsDefault(k, u.bandwidthPort, 1000))
    && (u.uploadMbps > 0 ==> PolicedAt(k, u.bandwidthPort, u.uploadMbps))
    && (u.uploadMbps <= 0 ==> Unpoliced(k, u.bandwidthPort))
  }

  /** Enabled, with a port and a rate. */
  ghost predicate Throttled(u: User) {
    u.enabled && u.bandwidthPort != 0 && (u.downloadMbps != 0 || u.uploadMbps != 0)
  }

  lemma ThrottledIsLimited(c: Config)
    requires Valid(c)
    ensures forall u :: u in c.users ==> (Throttled(u) <==> IsLimited(u))
  {
    forall u | u in c.users ensures Throttled(u) <==> IsLimited(u) {
      var i :| 0 <= i < |c.users| && c.users[i] == u;
      assert UserOk(c.users[i]);
    }
  }

  /** From the configuration to the wire. For a valid configuration whose 899th limited user, if there is one, does
      not limit downloads (so for any with at most 898 limited users), running the emitted commands on any kernel
      state succeeds, and then every limited user has an own class of the download rate and is policed at the upload
      rate, every other port is unpoliced and gets the default class, and no two ports are given the same mark. */
  lemma ValidConfigIsEnforced(c: Config, limits: seq<Limit>, k: Kernel)
    requires Valid(c) && multiset(limits) == multiset(LimitsOf(c.users)) && limits != [] && !TakesDefault(limits)
    ensures var r := RunFrom(k, Commands(limits));
            && r.1 == |Commands(limits)|
            && (forall u :: u in c.users && Throttled(u) ==> Enforced(r.0, u))
            && (forall port :: (forall u :: u in c.users && Throttled(u) ==> u.bandwidthPort != port) ==>
                  GetsDefault(r.0, port, 1000) && Unpoliced(r.0, port))
            && r.0.table.Some?
            && (forall p, q :: p != q && MarkFor(r.0.table.value, p) == MarkFor(r.0.table.value, q) ==>
                  MarkFor(r.0.table.value, p) == 0)
  {
    ValidLimitsAreGood(c, limits);
    CommandsBuild(k, limits);
    ThrottledIsLimited(c);
    forall u | u in c.users && Throttled(u) ensures Enforced(Built(limits, |limits|), u) {
      LimitFromUser(c, limits, u);
      var i :| 0 <= i < |limits| && limits[i] == LimitOf(u);
      if u.downloadMbps > 0 { OwnClassHeld(limits, i); } else { OthersGetDefault(limits, u.bandwidthPort); }
      UploadsArePoliced(limits, u.bandwidthPort);
    }
    forall port | forall u :: u in c.users && Throttled(u) ==> u.bandwidthPort != port
      ensures GetsDefault(Built(limits, |limits|), port, 1000) && Unpoliced(Built(limits, |limits|), port)
    {
      forall i | 0 <= i < |limits| ensures limits[i].port != port { UserFromLimit(c, limits, i); }
      OthersGetDefault(limits, port);
      UploadsArePoliced(limits, port);
    }
    forall p, q | p != q
      ensures MarkFor(NFTScript(limits), p) == MarkFor(NFTScript(limits), q) ==> MarkFor(NFTScript(limits), p) == 0
    {
      MarksAreDistinct(limits, p, q);
    }
  }

  /** From the panel to the wire. When `SetUserBandwidth` has limited an enabled user, the result is valid and the user
      has a port, and the commands have run on any kernel: downloads from that port have a class of their own of rate
      `down`, uploads to it are policed at `up`, and a zero rate means no limit. */
  lemma SetBandwidthIsEnforced(
      c: Config, after: Config, i: nat, down: int, up: int, limits: seq<Limit>, k: Kernel)
    requires M.Limits(c, after, i, down, up) && Valid(after)
    requires c.users[i].enabled && after.users[i].bandwidthPort != 0
    requires multiset(limits) == multiset(LimitsOf(after.users)) && !TakesDefault(limits)
    ensures var (end, port) := (RunFrom(k, Commands(limits)).0, after.users[i].bandwidthPort);
            && (if down > 0 then HasOwnClass(end, port, down) else GetsDefault(end, port, 1000))
            && (if up > 0 then PolicedAt(end, port, up) else Unpoliced(end, port))
  {
    var u := after.users[i];
    assert UserOk(u) && u in after.users;
    ThrottledIsLimited(after);
    LimitFromUser(after, limits, u);
    ValidConfigIsEnforced(after, limits, k);
  }

  // ---- the 899th user, from the configuration on ----

  lemma SomeUserIsNotEnforced(c: Config, limits: seq<Limit>)
    requires Valid(c) && multiset(limits) == multiset(LimitsOf(c.users)) && TakesDefault(limits)
    ensures exists u :: u in c.users && IsLimited(u) && !Enforced(Built(limits, |limits|), u)
  {
    var k := Built(limits, |limits|);
    ValidLimitsAreGood(c, limits);
    UserFromLimit(c, limits, 898);
    var u :| u in c.users && IsLimited(u) && limits[898] == LimitOf(u);
    DownloadsAreShaped(limits, 898);
    if HasOwnClass(k, u.bandwidthPort, u.downloadMbps) {
      var minor :| Lands(k, u.bandwidthPort, minor) && minor != k.root.defaultMinor;
      LandsOnce(k, u.bandwidthPort, minor, DEFAULT_MINOR);
    }
  }

  /** For a valid configuration, the limits of all users are enforced on every kernel exactly when no 899th user takes
      the default class over. */
  lemma ConfigIsEnforcedIff(c: Config, limits: seq<Limit>, k: Kernel)
    requires Valid(c) && multiset(limits) == multiset(LimitsOf(c.users)) && limits != []
    ensures (forall u :: u in c.users && Throttled(u) ==> Enforced(RunFrom(k, Commands(limits)).0, u))
            <==> !TakesDefault(limits)
  {
    ThrottledIsLimited(c);
    if TakesDefault(limits) {
      CommandsBuild(k, limits);
      SomeUserIsNotEnforced(c, limits);
    } else {
      ValidConfigIsEnforced(c, limits, k);
    }
  }

  lemma {:induction false} AllLimited(users: seq<User>)
    requires forall u :: u in users ==> IsLimited(u)
    ensures LimitedUsers(users) == users
  {
    if users == [] {
    } else {
      AllLimited(users[1..]);
      assert users == [users[0]] + users[1..];
    }
  }

  /** When every user limits downloads, 899 of them are enough, in whatever order the limits come. */
  lemma ManyTakeDefault(users: seq<User>, limits: seq<Limit>)
    requires |users| >= 899 && forall u :: u in users ==> IsLimited(u) && u.downloadMbps > 0
    requires multiset(limits) == multiset(LimitsOf(users))
    ensures TakesDefault(limits)
  {
    AllLimited(users);
    assert |multiset(limits)| == |limits| && |multiset(LimitsOf(users))| == |users|;
    assert limits[898] in multiset(LimitsOf(users));
    var i :| 0 <= i < |users| && LimitsOf(users)[i] == limits[898];
    assert users[i] in users;
  }

  /** `n` users with a download limit, on ports of their own. */
  function Crowd(n: nat): seq<User> {
    seq(n, i requires 0 <= i < n => ALICE.(email := Itoa(i), downloadMbps := 5, bandwidthPort := 30000 + i))
  }

  lemma CrowdIsOk(n: nat)
    requires n <= 35536
    ensures UsersOk(Crowd(n)) && forall u :: u in Crowd(n) ==> IsLimited(u) && u.downloadMbps > 0
  {
    var users := Crowd(n);
    forall i | 0 <= i < n ensures UserOk(users[i]) { CrowdMember(n, i); }
    forall i, j | 0 <= i < j < n ensures users[i].email != users[j].email {
      AtoiItoa(i);
      AtoiItoa(j);
    }
  }

  lemma CrowdMember(n: nat, i: nat)
    requires i < n <= 35536
    ensures UserOk(Crowd(n)[i])
  {
  }

  ghost function Crowded(n: nat): Config { Variant(Crowd(n), [], 1080, NO_SPOOF, "", []) }

  lemma CrowdedIsValid(n: nat)
    requires n <= 35536
    ensures Valid(Crowded(n))
  {
    CrowdIsOk(n);
    CrowdClashesNowhere(n);
    VariantIsValid(Crowd(n), [], 1080, NO_SPOOF, "", []);
  }

  lemma CrowdClashesNowhere(n: nat)
    ensures NoClash([8080, 8081, 1080, 10085] + UserPorts(Crowd(n)) + SOCKSPorts([]) + SpoofPorts(NO_SPOOF))
  {
    var fixed := [8080, 8081, 1080, 10085];
    var ports := fixed + UserPorts(Crowd(n)) + SOCKSPorts([]) + SpoofPorts(NO_SPOOF);
    assert ports == fixed + UserPorts(Crowd(n));
    assert forall i :: 4 <= i < |ports| ==> ports[i] == 30000 + i - 4;
  }

  /** Valid configurations whose limits are not enforced, in any order and on any kernel: those of 899 users and more,
      each with a download limit and a port of their own. */
  lemma CrowdIsNotEnforced(n: nat, limits: seq<Limit>, k: Kernel)
    requires 899 <= n <= 35536 && multiset(limits) == multiset(LimitsOf(Crowded(n).users))
    ensures Valid(Crowded(n))
    ensures exists u :: u in Crowded(n).users && Throttled(u) && !Enforced(RunFrom(k, Commands(limits)).0, u)
  {
    CrowdIsOk(n);
    CrowdedIsValid(n);
    ManyTakeDefault(Crowd(n), limits);
    CommandsBuild(k, limits);
    SomeUserIsNotEnforced(Crowded(n), limits);
  }
}
