/** The two halves together: the claim protocol decides who may work on a host, and
    the files on the host decide whether its bootstrap script is launched
    (internal/controller/hostmachine_controller.go, runBootstrap). */
module Bootstrap {
  import opened Objects
  import opened Claims
  import opened ClaimSafety
  import opened ClaimTheorems
  import opened Tenancy
  import opened Reservation
  import opened Provisioner

  /** What bootstrap data and host address render to, and the checksum of that. */
  datatype Plan = Plan(script: (string, string) -> string, checksum: string -> string)

  /** The store, the disks, and how far each reconcile got with its own Start. */
  datatype System = System(world: World, sites: map<string, Site>, attempts: map<string, Stage>)

  /** Which files an interrupted reset left behind. */
  datatype Kept = Kept(checksum: bool, exit: bool, script: bool, runner: bool)

  datatype Act =
    | Protocol(action: Action)                    // an API call, or somebody changing the store
    | Work(machine: string, event: Event)         // a remote command of a reconcile that has a host
    | Finish(host: string, run: nat, code: int)   // a launched script exits
    | Reset(machine: string, kept: Kept)          // a deleting machine's reset of its host

  const Blank := Site(Disk("", Missing, "", ""), [], None)

  function SiteOf(s: System, h: string): Site {
    if h in s.sites then s.sites[h] else Blank
  }

  function StageOf(s: System, m: string): Option<Stage> {
    if m in s.attempts then Some(s.attempts[m]) else None
  }

  /** Host h as the reconcile of m sees it. */
  function View(s: System, m: string, h: string): Site {
    SiteOf(s, h).(stage := if HasHost(s.world, m, h) then StageOf(s, m) else None)
  }

  function Script(p: Plan, m: string, h: string): string {
    p.script(m, h)
  }

  function Sum(p: Plan, m: string, h: string): string {
    p.checksum(p.script(m, h))
  }

  predicate HasHost(w: World, m: string, h: string) {
    m in w.passes && w.passes[m].Holding? && w.passes[m].host == h
  }

  /** markHostProvisioned runs only once the host says the script succeeded. */
  predicate Allowed(s: System, p: Plan, a: Action) {
    a.Reconcile? && a.call.MarkProvisioned? && a.machine in s.world.passes && s.world.passes[a.machine].Holding? ==>
      var h := s.world.passes[a.machine].host;
      StatusOf(SiteOf(s, h).disk, Sum(p, a.machine, h)) == Succeeded
  }

  /** A reconcile that moves on, ends or dies takes its connection with it. */
  function DoProtocol(s: System, p: Plan, a: Action): System {
    if !Allowed(s, p, a) then s
    else
      var w := Step(s.world, a);
      s.(world := w, attempts := map m | m in s.attempts && PassOf(w, m) == PassOf(s.world, m) :: s.attempts[m])
  }

  function DoWork(s: System, p: Plan, m: string, e: Event): System {
    if e.Exit? || m !in s.world.passes || !s.world.passes[m].Holding? then s
    else
      var h := s.world.passes[m].host;
      var v := Happen(View(s, m, h), Script(p, m, h), Sum(p, m, h), e);
      s.(sites := s.sites[h := v.(stage := None)],
         attempts := if v.stage.Some? then s.attempts[m := v.stage.value] else s.attempts - {m})
  }

  function DoFinish(s: System, h: string, run: nat, code: int): System {
    s.(sites := s.sites[h := Happen(SiteOf(s, h), "", "", Exit(run, code))])
  }

  function DoReset(s: System, m: string, kept: Kept): System {
    if m !in s.world.passes || !s.world.passes[m].Resetting? then s
    else
      var h := s.world.passes[m].host;
      var d := SiteOf(s, h).disk;
      s.(sites := s.sites[h := SiteOf(s, h).(disk := Disk(
        if kept.checksum then d.checksum else "",
        if kept.exit then d.exit else Missing,
        if kept.script then d.script else "",
        if kept.runner then d.runner else ""))])
  }

  function Act1(s: System, p: Plan, a: Act): System {
    match a
    case Protocol(action) => DoProtocol(s, p, action)
    case Work(m, e) => DoWork(s, p, m, e)
    case Finish(h, run, code) => DoFinish(s, h, run, code)
    case Reset(m, kept) => DoReset(s, m, kept)
  }

  function Acts(s: System, p: Plan, acts: seq<Act>): System
    decreases |acts|
  {
    if acts == [] then s else Acts(Act1(s, p, acts[0]), p, acts[1..])
  }

  /** No step ends m's tenancy of h, and no release loses its last patch. */
  predicate Within(a: Act, m: string, h: string) {
    a.Protocol? ==> !Ends(a.action, m, h) && !LosesPatch(a.action)
  }

  predicate AllWithin(acts: seq<Act>, m: string, h: string) {
    forall i :: 0 <= i < |acts| ==> Within(acts[i], m, h)
  }

  // ---- a tenancy is a run of the host-side machine

  /** What a step is to host h and its tenant m. */
  ghost function Seen(s: System, p: Plan, a: Act, m: string, h: string): seq<Event> {
    match a
    case Protocol(action) =>
      if PassOf(Act1(s, p, a).world, m) == PassOf(s.world, m) then [] else [Cut]
    case Work(k, e) => if k == m && !e.Exit? && HasHost(s.world, m, h) then [e] else []
    case Finish(g, run, code) => if g == h then [Exit(run, code)] else []
    case Reset(_, _) => []
  }

  ghost function SeenAll(s: System, p: Plan, acts: seq<Act>, m: string, h: string): seq<Event>
    decreases |acts|
  {
    if acts == [] then [] else Seen(s, p, acts[0], m, h) + SeenAll(Act1(s, p, acts[0]), p, acts[1..], m, h)
  }

  /** Nobody but m works on a host reserved for m. */
  lemma {:induction false} WorkReserved(s: System, p: Plan, k: string, e: Event, m: string, h: string)
    requires Inv(s.world) && Reserved(s.world, m, h)
    ensures
      var s' := DoWork(s, p, k, e);
      View(s', m, h) ==
        if k == m && !e.Exit? && HasHost(s.world, m, h) then Happen(View(s, m, h), Script(p, m, h), Sum(p, m, h), e)
        else View(s, m, h)
  {
    if k in s.world.passes && s.world.passes[k].Holding? {
      assert Holds(s.world, k, s.world.passes[k].host);
    }
  }

  /** Nobody resets a host that somebody else has. */
  lemma {:induction false} ResetSeen(s: System, k: string, kept: Kept, m: string, h: string)
    requires Inv(s.world) && Owned(s.world, m, h)
    ensures View(DoReset(s, k, kept), m, h) == View(s, m, h)
  {
    if k in s.world.passes && s.world.passes[k].Resetting? {
      var g := s.world.passes[k].host;
      assert PassOk(s.world, k, s.world.passes[k]);
      assert Holds(s.world, k, g);
      OwnedMeans(s.world, m, h, k, g);
      assert g != h;
    }
  }

  lemma {:induction false} StepSeen(s: System, p: Plan, a: Act, m: string, h: string)
    requires Inv(s.world) && Owned(s.world, m, h)
    ensures View(Act1(s, p, a), m, h) == Play(View(s, m, h), Script(p, m, h), Sum(p, m, h), Seen(s, p, a, m, h))
  {
    var v := View(s, m, h);
    match a
    case Protocol(action) =>
      PlayOne(v, Script(p, m, h), Sum(p, m, h), Cut);
    case Work(k, e) =>
      OwnedIsReserved(s.world, m, h);
      WorkReserved(s, p, k, e, m, h);
      PlayOne(v, Script(p, m, h), Sum(p, m, h), e);
    case Finish(g, run, code) => PlayOne(v, Script(p, m, h), Sum(p, m, h), Exit(run, code));
    case Reset(k, kept) => ResetSeen(s, k, kept, m, h);
  }

  lemma {:induction false} ActKeeps(s: System, p: Plan, a: Act, m: string, h: string)
    requires Inv(s.world) && Owned(s.world, m, h) && Within(a, m, h)
    ensures Inv(Act1(s, p, a).world) && Owned(Act1(s, p, a).world, m, h)
  {
    if a.Protocol? {
      StepKeeps(s.world, a.action);
      StepKeepsOwned(s.world, m, h, a.action);
    }
  }

  /** However API calls, crashes, moves, probes, other machines and other hosts
      interleave, what happens on a tenant's host is a run of its own bootstrap. */
  lemma {:induction false} TenancyIsARun(s: System, p: Plan, acts: seq<Act>, m: string, h: string)
    requires Inv(s.world) && Owned(s.world, m, h) && AllWithin(acts, m, h)
    ensures Inv(Acts(s, p, acts).world) && Owned(Acts(s, p, acts).world, m, h)
    ensures View(Acts(s, p, acts), m, h) == Play(View(s, m, h), Script(p, m, h), Sum(p, m, h), SeenAll(s, p, acts, m, h))
    decreases |acts|
  {
    if acts != [] {
      var s' := Act1(s, p, acts[0]);
      StepSeen(s, p, acts[0], m, h);
      ActKeeps(s, p, acts[0], m, h);
      TenancyIsARun(s', p, acts[1..], m, h);
      PlayConcat(View(s, m, h), Script(p, m, h), Sum(p, m, h), Seen(s, p, acts[0], m, h), SeenAll(s', p, acts[1..], m, h));
    }
  }

  // ---- main results

  /** During one tenancy the bootstrap script is launched at most once, across any
      number of restarts, retries and moves, and it is the tenant's own script. */
  lemma {:induction false} BootstrappedAtMostOnce(s: System, p: Plan, acts: seq<Act>, m: string, h: string)
    requires Inv(s.world) && Owned(s.world, m, h) && m !in s.attempts && AllWithin(acts, m, h)
    requires Sum(p, m, h) != ""
    ensures
      var before, after := SiteOf(s, h).launches, SiteOf(Acts(s, p, acts), h).launches;
      && |before| <= |after| <= |before| + 1
      && (|after| > |before| ==> after[|before|].script == Script(p, m, h))
      && (SiteOf(s, h).disk.checksum == Sum(p, m, h) ==> |after| == |before|)
  {
    TenancyIsARun(s, p, acts, m, h);
    LaunchedAtMostOnce(View(s, m, h), Script(p, m, h), Sum(p, m, h), SeenAll(s, p, acts, m, h));
  }

  /** The host counts as provisioned only once its tenant's script has succeeded. */
  ghost predicate ProvisionedMeans(s: System, p: Plan, m: string, h: string) {
    h in s.world.hosts && s.world.hosts[h].phase == Provisioned ==> StatusOf(SiteOf(s, h).disk, Sum(p, m, h)) == Succeeded
  }

  lemma {:induction false} OnlyMarkingProvisions(w: World, a: Action, m: string, h: string)
    requires Inv(w) && Owned(w, m, h) && !Ends(a, m, h) && !LosesPatch(a)
    requires !(a == Reconcile(m, MarkProvisioned))
    ensures h in Step(w, a).hosts
    ensures Step(w, a).hosts[h].phase == Provisioned ==> w.hosts[h].phase == Provisioned
  {
    StepKeepsOwned(w, m, h, a);
    if Enabled(w, a) {
      match a
      case Operate(op) => OperationProvisions(w, op, h);
      case Reconcile(k, c) => if k != m { OthersSpareHost(w, m, h, k, c); } else { OwnStepProvisions(w, m, h, c); }
      case Watch(k, c) => ProbeProvisions(w, k, c, h);
    }
  }

  lemma {:induction false} OperationProvisions(w: World, op: Operation, h: string)
    requires CanOperate(w, op) && h in w.hosts && h in DoOperate(w, op).hosts
    ensures DoOperate(w, op).hosts[h].phase == Provisioned ==> w.hosts[h].phase == Provisioned
  {
    match op
    case AddHost(_, _, _) =>
    case EditHost(_, _, _) =>
    case DeleteHost(_) =>
    case AddMachine(_, _) =>
    case DeleteMachine(_) =>
    case Move =>
  }

  lemma {:induction false} OwnStepProvisions(w: World, m: string, h: string, c: Call)
    requires Inv(w) && Owned(w, m, h) && CanReconcile(w, m, c) && !c.MarkProvisioned?
    ensures h in DoReconcile(w, m, c).hosts
    ensures DoReconcile(w, m, c).hosts[h].phase == Provisioned ==> w.hosts[h].phase == Provisioned
  {
    if c.Look? { LookFramedHosts(w, m, c.order); }
  }

  lemma {:induction false} ProbeProvisions(w: World, k: string, c: HostCall, h: string)
    requires Inv(w) && CanWatch(w, k, c) && h in w.hosts && h in DoWatch(w, k, c).hosts
    ensures DoWatch(w, k, c).hosts[h].phase == Provisioned ==> w.hosts[h].phase == Provisioned
  {
    match c
    case HostWrite => WriteProvisions(w, k, h);
    case HostBegin =>
    case HostCheck =>
    case HostProbe(_) =>
    case HostRemove =>
    case HostCrash =>
  }

  lemma {:induction false} WriteProvisions(w: World, k: string, h: string)
    requires Inv(w) && CanWatch(w, k, HostWrite) && h in w.hosts && h in DoHostWrite(w, k).hosts
    ensures DoHostWrite(w, k).hosts[h].phase == Provisioned ==> w.hosts[h].phase == Provisioned
  {
    assert ProbeOk(w, k, w.probes[k]);
  }

  lemma {:induction false} ActProvisioned(s: System, p: Plan, a: Act, m: string, h: string, n: nat)
    requires Inv(s.world) && Owned(s.world, m, h) && Within(a, m, h) && Sum(p, m, h) != ""
    requires OutcomeInv(View(s, m, h), Script(p, m, h), Sum(p, m, h), n) && ProvisionedMeans(s, p, m, h)
    ensures OutcomeInv(View(Act1(s, p, a), m, h), Script(p, m, h), Sum(p, m, h), n) && ProvisionedMeans(Act1(s, p, a), p, m, h)
  {
    var s' := Act1(s, p, a);
    StepSeen(s, p, a, m, h);
    PlayForward(View(s, m, h), Script(p, m, h), Sum(p, m, h), n, Seen(s, p, a, m, h));
    assert SiteOf(s, h).disk == View(s, m, h).disk && SiteOf(s', h).disk == View(s', m, h).disk;
    if a.Protocol? && Allowed(s, p, a.action) {
      if a.action == Reconcile(m, MarkProvisioned) {
        assert s'.world.hosts != s.world.hosts ==> HasHost(s.world, m, h);
      } else {
        OnlyMarkingProvisions(s.world, a.action, m, h);
      }
    }
  }

  lemma {:induction false} ActsProvisioned(s: System, p: Plan, acts: seq<Act>, m: string, h: string, n: nat)
    requires Inv(s.world) && Owned(s.world, m, h) && AllWithin(acts, m, h) && Sum(p, m, h) != ""
    requires OutcomeInv(View(s, m, h), Script(p, m, h), Sum(p, m, h), n) && ProvisionedMeans(s, p, m, h)
    ensures ProvisionedMeans(Acts(s, p, acts), p, m, h)
    decreases |acts|
  {
    if acts != [] {
      ActKeeps(s, p, acts[0], m, h);
      ActProvisioned(s, p, acts[0], m, h, n);
      ActsProvisioned(Act1(s, p, acts[0]), p, acts[1..], m, h, n);
    }
  }

  /** A tenant's host is Provisioned only if that tenant's script ran on it, once,
      and exited 0: older files on the disk and other machines cannot fake it. */
  lemma {:induction false} ProvisionedHostsRanTheirScript(s: System, p: Plan, acts: seq<Act>, m: string, h: string)
    requires Inv(s.world) && Owned(s.world, m, h) && m !in s.attempts && AllWithin(acts, m, h)
    requires Sum(p, m, h) != "" && SiteOf(s, h).disk.checksum != Sum(p, m, h)
    requires AllExited(SiteOf(s, h).launches) && s.world.hosts[h].phase != Provisioned
    ensures
      var after := Acts(s, p, acts);
      var n := |SiteOf(s, h).launches|;
      && h in after.world.hosts
      && (after.world.hosts[h].phase == Provisioned ==>
            && |SiteOf(after, h).launches| == n + 1
            && SiteOf(after, h).launches[n].script == Script(p, m, h)
            && SiteOf(after, h).launches[n].exited == Some(0))
  {
    var v := View(s, m, h);
    var n := |v.launches|;
    assert v.launches[..n] == v.launches;
    TenancyIsARun(s, p, acts, m, h);
    ActsProvisioned(s, p, acts, m, h, n);
    OutcomeIsTheScripts(v, Script(p, m, h), Sum(p, m, h), SeenAll(s, p, acts, m, h));
    assert SiteOf(Acts(s, p, acts), h).disk == View(Acts(s, p, acts), m, h).disk;
  }

  predicate KeepsPatches(acts: seq<Act>) {
    forall i :: 0 <= i < |acts| ==> (acts[i].Protocol? ==> !LosesPatch(acts[i].action))
  }

  lemma {:induction false} ActsKeepInv(s: System, p: Plan, acts: seq<Act>)
    requires Inv(s.world) && KeepsPatches(acts)
    ensures Inv(Acts(s, p, acts).world)
    decreases |acts|
  {
    if acts != [] {
      if acts[0].Protocol? { StepKeeps(s.world, acts[0].action); }
      ActsKeepInv(Act1(s, p, acts[0]), p, acts[1..]);
    }
  }

  // ---- until the release

  /** m will never bootstrap anything again: it is being deleted or gone, and no
      reconcile of it that began earlier is still under way. */
  ghost predicate Retired(w: World, m: string) {
    && m in w.machineNames && (m in w.machines ==> w.machines[m].deleting)
    && (m in w.passes ==>
          var p := w.passes[m];
          p.Deleting? || p.Resetting? || p.Clearing? || p.Released? || p.Leaving? || p.Finishing?)
  }

  lemma {:induction false} RetiredOwnStep(w: World, m: string, c: Call)
    requires Retired(w, m) && CanReconcile(w, m, c)
    ensures Retired(DoReconcile(w, m, c), m)
  {
  }

  lemma {:induction false} RetiredStays(w: World, m: string, a: Action)
    requires Retired(w, m)
    ensures Retired(Step(w, a), m)
  {
    if Enabled(w, a) {
      match a
      case Operate(op) =>
      case Reconcile(k, c) => if k == m { RetiredOwnStep(w, m, c); } else { ReconcileFramed(w, k, c, m); }
      case Watch(k, c) => WatchLeavesAlone(w, k, c);
    }
  }

  /** At most one launch since there were n, and of this script. */
  ghost predicate OneMore(launches: seq<Launch>, script: string, n: nat) {
    n <= |launches| <= n + 1 && (|launches| == n + 1 ==> launches[n].script == script)
  }

  ghost predicate LaunchInv(s: System, p: Plan, m: string, h: string, n: nat) {
    || OnceInv(View(s, m, h), Script(p, m, h), Sum(p, m, h), n)
    || (Retired(s.world, m) && OneMore(SiteOf(s, h).launches, Script(p, m, h), n))
  }

  lemma {:induction false} WorkKeepsLaunchInv(s: System, p: Plan, k: string, e: Event, m: string, h: string, n: nat)
    requires Inv(s.world) && Reserved(s.world, m, h) && Sum(p, m, h) != "" && LaunchInv(s, p, m, h, n)
    ensures LaunchInv(DoWork(s, p, k, e), p, m, h, n)
  {
    WorkReserved(s, p, k, e, m, h);
    var s' := DoWork(s, p, k, e);
    assert View(s', m, h).launches == SiteOf(s', h).launches && View(s, m, h).launches == SiteOf(s, h).launches;
    if OnceInv(View(s, m, h), Script(p, m, h), Sum(p, m, h), n) {
      HappenOnce(View(s, m, h), Script(p, m, h), Sum(p, m, h), n, e);
    }
  }

  lemma {:induction false} FinishKeepsLaunchInv(s: System, p: Plan, g: string, run: nat, code: int, m: string, h: string, n: nat)
    requires Sum(p, m, h) != "" && LaunchInv(s, p, m, h, n)
    ensures LaunchInv(DoFinish(s, g, run, code), p, m, h, n)
  {
    if OnceInv(View(s, m, h), Script(p, m, h), Sum(p, m, h), n) {
      HappenOnce(View(s, m, h), Script(p, m, h), Sum(p, m, h), n, Exit(run, code));
    }
  }

  /** Only m itself resets the host, and then it has done with bootstrapping. */
  lemma {:induction false} ResetKeepsLaunchInv(s: System, p: Plan, k: string, kept: Kept, m: string, h: string, n: nat)
    requires Inv(s.world) && Reserved(s.world, m, h) && LaunchInv(s, p, m, h, n)
    ensures LaunchInv(DoReset(s, k, kept), p, m, h, n)
  {
    if k in s.world.passes && s.world.passes[k].Resetting? && s.world.passes[k].host == h {
      assert PassOk(s.world, k, s.world.passes[k]);
      assert Holds(s.world, k, h);
      assert k == m && Retired(s.world, m);
      assert OneMore(SiteOf(s, h).launches, Script(p, m, h), n);
    }
  }

  lemma {:induction false} ProtocolKeepsLaunchInv(s: System, p: Plan, a: Action, m: string, h: string, n: nat)
    requires Sum(p, m, h) != "" && LaunchInv(s, p, m, h, n)
    ensures LaunchInv(DoProtocol(s, p, a), p, m, h, n)
  {
    var s' := DoProtocol(s, p, a);
    if OnceInv(View(s, m, h), Script(p, m, h), Sum(p, m, h), n) {
      HappenOnce(View(s, m, h), Script(p, m, h), Sum(p, m, h), n, Cut);
      assert View(s', m, h) == View(s, m, h) || View(s', m, h) == View(s, m, h).(stage := None);
    } else if Allowed(s, p, a) {
      RetiredStays(s.world, m, a);
    }
  }

  /** No step releases host h, and no release loses its last patch. */
  ghost predicate Unreleased(s: System, p: Plan, acts: seq<Act>, h: string)
    decreases |acts|
  {
    acts == [] ||
      (&& (acts[0].Protocol? ==> !LosesPatch(acts[0].action) && !Releases(s.world, acts[0].action, h))
       && Unreleased(Act1(s, p, acts[0]), p, acts[1..], h))
  }

  lemma {:induction false} ActKeepsReserved(s: System, p: Plan, a: Act, m: string, h: string)
    requires Inv(s.world) && Reserved(s.world, m, h)
    requires a.Protocol? ==> !LosesPatch(a.action) && !Releases(s.world, a.action, h)
    ensures Inv(Act1(s, p, a).world) && Reserved(Act1(s, p, a).world, m, h)
  {
    if a.Protocol? { StepKeepsReserved(s.world, m, h, a.action); }
  }

  lemma {:induction false} ActsKeepLaunchInv(s: System, p: Plan, acts: seq<Act>, m: string, h: string, n: nat)
    requires Inv(s.world) && Reserved(s.world, m, h) && Sum(p, m, h) != "" && LaunchInv(s, p, m, h, n)
    requires Unreleased(s, p, acts, h)
    ensures LaunchInv(Acts(s, p, acts), p, m, h, n)
    decreases |acts|
  {
    if acts != [] {
      ActKeepsReserved(s, p, acts[0], m, h);
      match acts[0] {
        case Protocol(action) => ProtocolKeepsLaunchInv(s, p, action, m, h, n);
        case Work(k, e) => WorkKeepsLaunchInv(s, p, k, e, m, h, n);
        case Finish(g, run, code) => FinishKeepsLaunchInv(s, p, g, run, code, m, h, n);
        case Reset(k, kept) => ResetKeepsLaunchInv(s, p, k, kept, m, h, n);
      }
      ActsKeepLaunchInv(Act1(s, p, acts[0]), p, acts[1..], m, h, n);
    }
  }

  /** From a claim or a move until the host is released, deletions of the machine and
      of the host and the reset included, the script is launched on it at most once,
      and it is the tenant's. */
  lemma {:induction false} OneLaunchUntilRelease(disks: map<string, Site>, p: Plan, before: seq<Act>, during: seq<Act>, m: string, h: string)
    requires KeepsPatches(before) && Sum(p, m, h) != ""
    requires
      var s := Acts(System(Empty, disks, map[]), p, before);
      Owned(s.world, m, h) && m !in s.attempts && Unreleased(s, p, during, h)
    ensures
      var s := Acts(System(Empty, disks, map[]), p, before);
      OneMore(SiteOf(Acts(s, p, during), h).launches, Script(p, m, h), |SiteOf(s, h).launches|)
  {
    ActsKeepInv(System(Empty, disks, map[]), p, before);
    var s := Acts(System(Empty, disks, map[]), p, before);
    OwnedIsReserved(s.world, m, h);
    ActsKeepLaunchInv(s, p, during, m, h, |SiteOf(s, h).launches|);
    var after := Acts(s, p, during);
    assert View(after, m, h).launches == SiteOf(after, h).launches;
  }
}
