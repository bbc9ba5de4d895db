/** What one comparison would buy: if reconcileDelete released only a host that is
    unclaimed or claimed by its own machine, exclusiveness would survive every lost
    patch.  A machine whose patch was lost stays behind as a ghost that goes on
    deleting itself; the world without the ghosts is one in which every patch arrived
    and somebody sometimes scrubs an unclaimed host. */
module ComparedRelease {
  import opened Objects
  import opened Claims
  import opened ClaimSafety
  import opened ClaimTheorems

  // ---- the protocol with the comparison

  /** The host m wants to release is claimed by somebody else by now. */
  predicate Theirs(w: World, m: string, h: string) {
    h in w.hosts && w.hosts[h].claimRef.Some? && w.hosts[h].claimRef != Some(Me(w, m))
  }

  /** reconcileDelete reading its host, with the comparison the source leaves out. */
  function ComparedFetch(w: World, m: string): World
    requires m in w.passes && w.passes[m].Deleting?
  {
    var ref := w.passes[m].ref;
    if ref.Some? && Theirs(w, m, ref.value) then SetPass(w, m, Leaving) else DoFetch(w, m)
  }

  function ComparedStep(w: World, a: Action): World {
    if a.Reconcile? && a.call.Fetch? && Enabled(w, a) then ComparedFetch(w, a.machine) else Step(w, a)
  }

  function ComparedRun(w: World, actions: seq<Action>): World
    decreases |actions|
  {
    if actions == [] then w else ComparedRun(ComparedStep(w, actions[0]), actions[1..])
  }

  // ---- ghosts

  /** Where a ghost's reconcile can stand: it never gets hold of a claimed host. */
  ghost predicate GhostPass(w: World, h: string, p: Pass) {
    match p
    case Deleting(ref) => ref == Some(h)
    case Resetting(g, seen) => g == h && Copy(w, h, seen) && seen.claimRef == None
    case Clearing(g, seen) => g == h && Copy(w, h, seen) && seen.claimRef == None && seen.claimedBy == None
    case Released(g) => g == h
    case Leaving => true
    case Finishing(ref) => ref == Some(h)
    case _ => false
  }

  /** The host a machine has on record. */
  function HostOf(w: World, m: string): string {
    if m in w.machines && w.machines[m].hostRef.Some? then w.machines[m].hostRef.value else ""
  }

  /** A machine whose release was written and whose patch was lost. */
  ghost predicate GhostOk(w: World, m: string) {
    && m in w.machines && w.machines[m].deleting && w.machines[m].finalizer && w.machines[m].hostRef.Some?
    && m in w.machineNames
    && var h := HostOf(w, m);
       && h in w.hostNames
       && (h in w.hosts ==> w.hosts[h].claimRef != Some(Me(w, m)))
       && (m in w.passes ==> GhostPass(w, h, w.passes[m]))
  }

  ghost predicate SameHosts(w: World, v: World) {
    && w.era == v.era && w.clock == v.clock && w.hosts == v.hosts && w.hostNames == v.hostNames
    && w.machineNames == v.machineNames && w.probes == v.probes
  }

  ghost predicate IsGhost(w: World, v: World, m: string) {
    m in w.machines && m !in v.machines
  }

  ghost predicate MatchesAt(w: World, v: World, m: string) {
    if IsGhost(w, v, m) then GhostOk(w, m) && m !in v.passes
    else MachineOf(w, m) == MachineOf(v, m) && PassOf(w, m) == PassOf(v, m)
  }

  /** v is w without its ghosts. */
  ghost predicate WithoutGhosts(w: World, v: World) {
    SameHosts(w, v) && forall m :: MatchesAt(w, v, m)
  }

  ghost predicate Good(v: World) {
    Inv(v) && Exclusive(v)
  }

  /** Somebody takes the label off an unclaimed host, or sends it back to Pending. */
  ghost predicate Scrubs(v: World, next: World) {
    exists h, x :: h in v.hosts && v.hosts[h].claimRef == None
      && (x == v.hosts[h].(claimedBy := None) || x == v.hosts[h].(claimedBy := None, phase := Pending))
      && next == PutHost(v, h, x)
  }

  /** Nothing happens, or one step of the protocol that loses no patch, or one scrub. */
  ghost predicate Follows(v: World, next: World) {
    next == v || (exists a :: !LosesPatch(a) && next == Step(v, a)) || Scrubs(v, next)
  }

  // ---- every run

  /** With the comparison, in every run, lost patches included, no two live machines
      hold one host, and the holder of a host that exists is the one its claimRef names:
      the missing comparison is the only gap. */
  lemma {:induction false} ComparisonRestoresExclusiveness(actions: seq<Action>, h: string, m: string, n: string)
    ensures
      var w := ComparedRun(Empty, actions);
      && (LiveHolder(w, m, h) && LiveHolder(w, n, h) ==> m == n)
      && (LiveHolder(w, m, h) && h in w.hosts ==> w.hosts[h].claimRef == Some(Me(w, m)))
  {
    var v := RunMatches(Empty, Empty, actions);
    var w := ComparedRun(Empty, actions);
    assert MatchesAt(w, v, m) && MatchesAt(w, v, n);
    if LiveHolder(w, m, h) && h in w.hosts { HolderIsClaimant(v, m, h); }
    assert LiveHolder(w, m, h) ==> Holds(v, m, h);
    assert LiveHolder(w, n, h) ==> Holds(v, n, h);
  }

  /** Every step, seen without the ghosts, is a step in which every patch arrives, a
      scrub of an unclaimed host, or nothing. */
  lemma {:induction false} StepMatches(w: World, v: World, a: Action) returns (next: World)
    requires WithoutGhosts(w, v) && Good(v)
    ensures WithoutGhosts(ComparedStep(w, a), next) && Good(next) && Follows(v, next)
  {
    next := v;
    if Enabled(w, a) {
      match a
      case Operate(op) => next := OperateMatches(w, v, op);
      case Watch(h, c) => next := WatchMatches(w, v, h, c);
      case Reconcile(k, c) =>
        if IsGhost(w, v, k) {
          next := GhostReconcile(w, v, k, c);
        } else if c.LosePatch? {
          LosingMakesGhost(w, v, k);
          next := Step(v, Reconcile(k, Drop));
        } else {
          LiveReconcile(w, v, k, c);
          next := Step(v, a);
        }
    }
  }

  lemma {:induction false} RunMatches(w: World, v: World, actions: seq<Action>) returns (next: World)
    requires WithoutGhosts(w, v) && Good(v)
    ensures WithoutGhosts(ComparedRun(w, actions), next) && Good(next)
    decreases |actions|
  {
    if actions == [] {
      next := v;
    } else {
      var middle := StepMatches(w, v, actions[0]);
      next := RunMatches(ComparedStep(w, actions[0]), middle, actions[1..]);
    }
  }

  // ---- what others do to a ghost's host

  /** Host h is as it was, gone, or rewritten with a claim that is not z's. */
  ghost predicate Evolves(w: World, w': World, h: string, z: string) {
    && w'.era == w.era && w'.clock >= w.clock && w.hostNames <= w'.hostNames && w.machineNames <= w'.machineNames
    && (h in w'.hosts ==>
          || (h in w.hosts && w'.hosts[h] == w.hosts[h])
          || (w'.hosts[h].version >= w.clock && w'.hosts[h].claimRef != Some(Me(w, z))))
  }

  lemma {:induction false} GhostStays(w: World, w': World, z: string)
    requires GhostOk(w, z) && Evolves(w, w', HostOf(w, z), z)
    requires MachineOf(w', z) == MachineOf(w, z) && PassOf(w', z) == PassOf(w, z)
    ensures GhostOk(w', z)
  {
  }

  lemma {:induction false} WritesEvolve(v: World, k: string, c: Call, h: string, z: string)
    requires Inv(v) && CanReconcile(v, k, c) && k != z
    requires c.Record? || c.MarkProvisioned? || c.Unlabel? || c.Clear?
    requires h in v.hostNames && (h in v.hosts ==> v.hosts[h].claimRef != Some(Me(v, z)))
    ensures Evolves(v, DoReconcile(v, k, c), h, z)
  {
    assert PassOk(v, k, v.passes[k]);
  }

  lemma {:induction false} WalkEvolves(v: World, k: string, h: string, z: string)
    requires Inv(v) && CanReconcile(v, k, Walk) && k != z
    requires h in v.hostNames && (h in v.hosts ==> v.hosts[h].claimRef != Some(Me(v, z)))
    ensures Evolves(v, DoWalk(v, k), h, z)
  {
    assert PassOk(v, k, v.passes[k]);
    var Walking(selector, list, rest) := v.passes[k];
    if rest != [] { assert Copy(v, rest[0], list[rest[0]]); }
  }

  lemma {:induction false} ReconcileEvolves(v: World, k: string, c: Call, h: string, z: string)
    requires Inv(v) && CanReconcile(v, k, c) && k != z
    requires h in v.hostNames && (h in v.hosts ==> v.hosts[h].claimRef != Some(Me(v, z)))
    ensures Evolves(v, DoReconcile(v, k, c), h, z)
  {
    match c
    case Walk => WalkEvolves(v, k, h, z);
    case Record => WritesEvolve(v, k, c, h, z);
    case MarkProvisioned => WritesEvolve(v, k, c, h, z);
    case Unlabel => WritesEvolve(v, k, c, h, z);
    case Clear => WritesEvolve(v, k, c, h, z);
    case Look(order) =>
    case _ =>
  }

  lemma {:induction false} WatchEvolves(v: World, k: string, c: HostCall, h: string, z: string)
    requires CanWatch(v, k, c)
    requires h in v.hostNames && (h in v.hosts ==> v.hosts[h].claimRef != Some(Me(v, z)))
    ensures Evolves(v, DoWatch(v, k, c), h, z)
  {
    match c
    case HostBegin =>
    case HostCheck =>
    case HostProbe(_) =>
    case HostWrite =>
    case HostRemove =>
    case HostCrash =>
  }

  // ---- steps of machines that are no ghosts

  /** A reconcile reads the hosts, its own machine and its own pass, and nothing else. */
  lemma {:induction false} ReconcileAlike(w: World, v: World, k: string, c: Call)
    requires Alike(w, v, k) && CanReconcile(w, k, c)
    ensures CanReconcile(v, k, c) && Alike(DoReconcile(w, k, c), DoReconcile(v, k, c), k)
  {
    match c
    case Look(order) =>
    case Walk => WalkAlike(w, v, k);
    case Record => RecordAlike(w, v, k);
    case MarkProvisioned => MarkAlike(w, v, k);
    case Unlabel => UnlabelAlike(w, v, k);
    case Clear => ClearAlike(w, v, k);
    case Patch =>
    case Crash =>
    case Drop =>
    case LosePatch =>
    case Begin =>
    case GiveUp =>
    case Fetch =>
  }

  /** The two worlds agree on all that machine k's reconcile can see. */
  ghost predicate Alike(w: World, v: World, k: string) {
    SameHosts(w, v) && MachineOf(w, k) == MachineOf(v, k) && PassOf(w, k) == PassOf(v, k)
  }

  lemma {:induction false} SetAlike(w: World, v: World, k: string, p: Pass)
    requires Alike(w, v, k)
    ensures Alike(SetPass(w, k, p), SetPass(v, k, p), k)
  {
  }

  lemma {:induction false} RecordAlike(w: World, v: World, k: string)
    requires Alike(w, v, k) && CanReconcile(w, k, Record)
    ensures CanReconcile(v, k, Record) && Alike(DoRecord(w, k), DoRecord(v, k), k)
  {
    var Recording(h, seen) := w.passes[k];
    var x := seen.(claimRef := Some(Me(w, k)), phase := Claimed);
    SetAlike(w, v, k, Finishing(None));
  }

  lemma {:induction false} MarkAlike(w: World, v: World, k: string)
    requires Alike(w, v, k) && CanReconcile(w, k, MarkProvisioned)
    ensures CanReconcile(v, k, MarkProvisioned) && Alike(DoMarkProvisioned(w, k), DoMarkProvisioned(v, k), k)
  {
    var Holding(h, seen) := w.passes[k];
    SetAlike(w, v, k, Finishing(Some(h)));
  }

  lemma {:induction false} UnlabelAlike(w: World, v: World, k: string)
    requires Alike(w, v, k) && CanReconcile(w, k, Unlabel)
    ensures CanReconcile(v, k, Unlabel) && Alike(DoUnlabel(w, k), DoUnlabel(v, k), k)
  {
    var Resetting(h, seen) := w.passes[k];
    var x := seen.(claimedBy := None);
    SetAlike(w, v, k, Clearing(h, x));
    SetAlike(w, v, k, Finishing(Some(h)));
  }

  lemma {:induction false} ClearAlike(w: World, v: World, k: string)
    requires Alike(w, v, k) && CanReconcile(w, k, Clear)
    ensures CanReconcile(v, k, Clear) && Alike(DoClear(w, k), DoClear(v, k), k)
  {
    var Clearing(h, seen) := w.passes[k];
    SetAlike(w, v, k, Released(h));
    SetAlike(w, v, k, Finishing(Some(h)));
  }

  lemma {:induction false} WalkAlike(w: World, v: World, k: string)
    requires Alike(w, v, k) && CanReconcile(w, k, Walk)
    ensures CanReconcile(v, k, Walk) && Alike(DoWalk(w, k), DoWalk(v, k), k)
  {
    var Walking(selector, list, rest) := w.passes[k];
    SetAlike(w, v, k, Finishing(None));
    if rest != [] {
      var x := list[rest[0]].(claimedBy := Some(k));
      SetAlike(w, v, k, Walking(selector, list, rest[1..]));
    }
  }

  /** A machine that is no ghost only ever releases its own host, so the comparison
      changes nothing for it. */
  lemma {:induction false} ComparisonIsIdle(w: World, v: World, k: string)
    requires Inv(v) && SameHosts(w, v) && PassOf(w, k) == PassOf(v, k) && CanReconcile(w, k, Fetch)
    ensures ComparedFetch(w, k) == DoFetch(w, k)
  {
    assert PassOk(v, k, v.passes[k]);
    assert MachineOk(v, k, v.machines[k]);
  }

  /** Everybody else, ghost or not, matches as before. */
  lemma {:induction false} OthersMatch(w: World, v: World, w': World, v': World, k: string, m: string)
    requires WithoutGhosts(w, v) && m != k
    requires MachineOf(w', m) == MachineOf(w, m) && PassOf(w', m) == PassOf(w, m)
    requires MachineOf(v', m) == MachineOf(v, m) && PassOf(v', m) == PassOf(v, m)
    requires IsGhost(w, v, m) ==> Evolves(w, w', HostOf(w, m), m)
    ensures MatchesAt(w', v', m)
  {
    assert MatchesAt(w, v, m);
    if IsGhost(w, v, m) { GhostStays(w, w', m); }
  }

  lemma {:induction false} LiveReconcile(w: World, v: World, k: string, c: Call)
    requires WithoutGhosts(w, v) && Good(v) && CanReconcile(w, k, c) && !IsGhost(w, v, k) && !c.LosePatch?
    ensures WithoutGhosts(ComparedStep(w, Reconcile(k, c)), Step(v, Reconcile(k, c))) && Good(Step(v, Reconcile(k, c)))
  {
    assert MatchesAt(w, v, k);
    ReconcileAlike(w, v, k, c);
    if c.Fetch? { ComparisonIsIdle(w, v, k); }
    var w', v' := DoReconcile(w, k, c), DoReconcile(v, k, c);
    StepKeeps(v, Reconcile(k, c));
    StepExclusive(v, Reconcile(k, c));
    forall m ensures MatchesAt(w', v', m) {
      if m != k {
        LiveReconcileSpares(w, v, k, c, m);
      }
    }
  }

  lemma {:induction false} LiveReconcileSpares(w: World, v: World, k: string, c: Call, m: string)
    requires WithoutGhosts(w, v) && Inv(v) && CanReconcile(w, k, c) && CanReconcile(v, k, c) && m != k
    requires SameHosts(DoReconcile(w, k, c), DoReconcile(v, k, c))
    ensures MatchesAt(DoReconcile(w, k, c), DoReconcile(v, k, c), m)
  {
    ReconcileFramed(w, k, c, m);
    ReconcileFramed(v, k, c, m);
    assert MatchesAt(w, v, m);
    if IsGhost(w, v, m) { ReconcileEvolves(v, k, c, HostOf(w, m), m); }
    OthersMatch(w, v, DoReconcile(w, k, c), DoReconcile(v, k, c), k, m);
  }

  /** Losing the patch makes a ghost; without ghosts, the patch arrived. */
  lemma {:induction false} LosingMakesGhost(w: World, v: World, k: string)
    requires WithoutGhosts(w, v) && Good(v) && CanReconcile(w, k, LosePatch) && !IsGhost(w, v, k)
    ensures WithoutGhosts(Step(w, Reconcile(k, LosePatch)), Step(v, Reconcile(k, Drop))) && Good(Step(v, Reconcile(k, Drop)))
  {
    assert MatchesAt(w, v, k);
    var w', v' := EndPass(w, k), DoDrop(v, k);
    StepKeeps(v, Reconcile(k, Drop));
    StepExclusive(v, Reconcile(k, Drop));
    assert PassOk(v, k, v.passes[k]);
    assert MachineOk(v, k, v.machines[k]);
    forall m ensures MatchesAt(w', v', m) {
      assert MatchesAt(w, v, m);
    }
  }

  // ---- steps of ghosts

  /** Taking a label off an unclaimed host, or sending it back to Pending. */
  lemma {:induction false} ScrubKeeps(v: World, z: string, h: string, x: Host)
    requires Good(v) && z !in v.machines && z !in v.passes && h in v.hosts && v.hosts[h].claimRef == None
    requires x == v.hosts[h].(claimedBy := None) || x == v.hosts[h].(claimedBy := None, phase := Pending)
    ensures Good(PutHost(v, h, x))
  {
    assert HostOk(v, h, v.hosts[h]);
    PutKeeps(v, z, h, x, Some(z));
    var v' := PutHost(v, h, x);
    forall g, m, n | Holds(v', m, g) && Holds(v', n, g) ensures m == n {
      assert Holds(v, m, g) && Holds(v, n, g);
    }
  }

  /** A ghost's write of its host, if it commits at all, is such a scrub. */
  lemma {:induction false} GhostWrites(w: World, v: World, z: string, x: Host, p: Pass, w': World)
    requires WithoutGhosts(w, v) && Good(v) && IsGhost(w, v, z)
    requires
      var h := HostOf(w, z);
      && h in w.hosts && w.hosts[h].claimRef == None
      && (x == w.hosts[h].(claimedBy := None) || x == w.hosts[h].(claimedBy := None, phase := Pending))
      && w' == SetPass(PutHost(w, h, x), z, p).(confirmed := w'.confirmed)
      && GhostPass(w', h, p)
    ensures WithoutGhosts(w', PutHost(v, HostOf(w, z), x)) && Good(PutHost(v, HostOf(w, z), x))
  {
    var h := HostOf(w, z);
    assert MatchesAt(w, v, z);
    ScrubKeeps(v, z, h, x);
    var v' := PutHost(v, h, x);
    forall m ensures MatchesAt(w', v', m) {
      if m != z {
        assert MatchesAt(w, v, m);
        OthersMatch(w, v, w', v', z, m);
      }
    }
  }

  /** A ghost's step that writes no host: nobody else notices. */
  lemma {:induction false} GhostMoves(w: World, v: World, z: string, w': World)
    requires WithoutGhosts(w, v) && IsGhost(w, v, z)
    requires SameHosts(w', w) && (z in w'.machines ==> GhostOk(w', z)) && (z !in w'.machines ==> z !in w'.passes)
    requires forall m :: m != z ==> MachineOf(w', m) == MachineOf(w, m) && PassOf(w', m) == PassOf(w, m)
    ensures WithoutGhosts(w', v)
  {
    assert MatchesAt(w, v, z);
    forall m ensures MatchesAt(w', v, m) {
      assert MatchesAt(w, v, m);
      if m != z && IsGhost(w, v, m) { GhostStays(w, w', m); }
    }
  }

  lemma {:induction false} GhostUnlabels(w: World, v: World, z: string) returns (next: World)
    requires WithoutGhosts(w, v) && Good(v) && IsGhost(w, v, z) && CanReconcile(w, z, Unlabel)
    ensures WithoutGhosts(DoUnlabel(w, z), next) && Good(next) && Follows(v, next)
  {
    assert MatchesAt(w, v, z);
    var Resetting(h, seen) := w.passes[z];
    if Fresh(w, h, seen) {
      var x := seen.(claimedBy := None);
      GhostWrites(w, v, z, x, Clearing(h, x.(version := w.clock)), DoUnlabel(w, z));
      next := PutHost(v, h, x);
    } else {
      GhostMoves(w, v, z, DoUnlabel(w, z));
      next := v;
    }
  }

  lemma {:induction false} GhostClears(w: World, v: World, z: string) returns (next: World)
    requires WithoutGhosts(w, v) && Good(v) && IsGhost(w, v, z) && CanReconcile(w, z, Clear)
    ensures WithoutGhosts(DoClear(w, z), next) && Good(next) && Follows(v, next)
  {
    assert MatchesAt(w, v, z);
    var Clearing(h, seen) := w.passes[z];
    if Fresh(w, h, seen) {
      var x := seen.(claimRef := None, phase := Pending);
      assert x == w.hosts[h].(claimedBy := None, phase := Pending);
      GhostWrites(w, v, z, x, Released(h), DoClear(w, z));
      next := PutHost(v, h, x);
    } else {
      GhostMoves(w, v, z, DoClear(w, z));
      next := v;
    }
  }

  lemma {:induction false} GhostReconcile(w: World, v: World, z: string, c: Call) returns (next: World)
    requires WithoutGhosts(w, v) && Good(v) && IsGhost(w, v, z) && CanReconcile(w, z, c)
    ensures WithoutGhosts(ComparedStep(w, Reconcile(z, c)), next) && Good(next) && Follows(v, next)
  {
    assert MatchesAt(w, v, z);
    if c.Unlabel? {
      next := GhostUnlabels(w, v, z);
    } else if c.Clear? {
      next := GhostClears(w, v, z);
    } else {
      GhostIdles(w, v, z, c);
      next := v;
    }
  }

  lemma {:induction false} GhostIdles(w: World, v: World, z: string, c: Call)
    requires WithoutGhosts(w, v) && Inv(v) && IsGhost(w, v, z) && CanReconcile(w, z, c) && !c.Unlabel? && !c.Clear?
    ensures WithoutGhosts(ComparedStep(w, Reconcile(z, c)), v)
  {
    assert MatchesAt(w, v, z);
    if c.Fetch? {
      GhostFetches(w, v, z);
    } else {
      var w' := DoReconcile(w, z, c);
      assert SameHosts(w', w);
      assert z in w'.machines ==> GhostOk(w', z);
      GhostMoves(w, v, z, w');
    }
  }

  /** A ghost that finds its host claimed by somebody else leaves. */
  lemma {:induction false} GhostFetches(w: World, v: World, z: string)
    requires WithoutGhosts(w, v) && Inv(v) && IsGhost(w, v, z) && CanReconcile(w, z, Fetch)
    ensures WithoutGhosts(ComparedFetch(w, z), v)
  {
    assert MatchesAt(w, v, z);
    var h := HostOf(w, z);
    if h in w.hosts { assert HostOk(v, h, v.hosts[h]); }
    GhostMoves(w, v, z, ComparedFetch(w, z));
  }

  // ---- everybody else

  lemma {:induction false} OperateMatches(w: World, v: World, op: Operation) returns (next: World)
    requires WithoutGhosts(w, v) && Good(v) && CanOperate(w, op)
    ensures WithoutGhosts(DoOperate(w, op), next) && Good(next) && Follows(v, next)
  {
    if op.DeleteMachine? && IsGhost(w, v, op.machine) {
      assert MatchesAt(w, v, op.machine);
      assert DoOperate(w, op).machines == w.machines;
      next := v;
      assert WithoutGhosts(DoOperate(w, op), next) by { GhostMoves(w, v, op.machine, DoOperate(w, op)); }
    } else {
      OperateAllowed(w, v, op);
      next := DoOperate(v, op);
      assert next == Step(v, Operate(op));
      if op.Move? { MoveMatches(w, v); } else { LiveOperate(w, v, op); }
    }
  }

  lemma {:induction false} OperateAllowed(w: World, v: World, op: Operation)
    requires WithoutGhosts(w, v) && CanOperate(w, op) && !(op.DeleteMachine? && IsGhost(w, v, op.machine))
    ensures CanOperate(v, op)
  {
    if op.DeleteMachine? { assert MatchesAt(w, v, op.machine); }
    if op.Move? {
      forall m | m in v.machines ensures !v.machines[m].deleting { assert MatchesAt(w, v, m); }
    }
  }

  /** A move waits until nothing is being deleted, so there are no ghosts then. */
  lemma {:induction false} MoveMatches(w: World, v: World)
    requires WithoutGhosts(w, v) && Good(v) && CanOperate(w, Move) && CanOperate(v, Move)
    ensures WithoutGhosts(DoMove(w), DoMove(v)) && Good(DoMove(v))
  {
    StepKeeps(v, Operate(Move));
    StepExclusive(v, Operate(Move));
    forall m ensures MatchesAt(DoMove(w), DoMove(v), m) { assert MatchesAt(w, v, m); }
  }

  lemma {:induction false} LiveOperate(w: World, v: World, op: Operation)
    requires WithoutGhosts(w, v) && Good(v) && CanOperate(w, op) && CanOperate(v, op) && !op.Move?
    requires !(op.DeleteMachine? && IsGhost(w, v, op.machine))
    ensures WithoutGhosts(DoOperate(w, op), DoOperate(v, op)) && Good(DoOperate(v, op))
  {
    var w', v' := DoOperate(w, op), DoOperate(v, op);
    StepKeeps(v, Operate(op));
    StepExclusive(v, Operate(op));
    OperateAlike(w, v, op);
    forall m ensures MatchesAt(w', v', m) {
      assert MatchesAt(w, v, m);
      if IsGhost(w, v, m) { GhostSurvivesOperation(w, v, op, m); } else { LiveUnderOperation(w, v, op, m); }
    }
  }

  lemma {:induction false} OperateAlike(w: World, v: World, op: Operation)
    requires SameHosts(w, v) && CanOperate(w, op) && CanOperate(v, op) && !op.Move?
    ensures SameHosts(DoOperate(w, op), DoOperate(v, op))
  {
    match op
    case AddHost(_, _, _) =>
    case EditHost(_, _, _) =>
    case DeleteHost(_) =>
    case AddMachine(_, _) =>
    case DeleteMachine(_) =>
  }

  lemma {:induction false} LiveUnderOperation(w: World, v: World, op: Operation, m: string)
    requires CanOperate(w, op) && CanOperate(v, op) && !op.Move?
    requires MachineOf(w, m) == MachineOf(v, m) && PassOf(w, m) == PassOf(v, m)
    ensures MatchesAt(DoOperate(w, op), DoOperate(v, op), m)
  {
    match op
    case AddHost(_, _, _) =>
    case EditHost(_, _, _) =>
    case DeleteHost(_) =>
    case AddMachine(_, _) =>
    case DeleteMachine(_) =>
  }

  lemma {:induction false} GhostSurvivesOperation(w: World, v: World, op: Operation, m: string)
    requires CanOperate(w, op) && CanOperate(v, op) && !op.Move?
    requires IsGhost(w, v, m) && GhostOk(w, m) && m !in v.passes && !(op.DeleteMachine? && op.machine == m)
    ensures MatchesAt(DoOperate(w, op), DoOperate(v, op), m)
  {
    GhostStays(w, DoOperate(w, op), m);
    assert m !in DoOperate(v, op).machines && m !in DoOperate(v, op).passes;
  }

  lemma {:induction false} WatchMatches(w: World, v: World, h: string, c: HostCall) returns (next: World)
    requires WithoutGhosts(w, v) && Good(v) && CanWatch(w, h, c)
    ensures WithoutGhosts(DoWatch(w, h, c), next) && Good(next) && Follows(v, next)
  {
    var a := c;
    if c.HostCheck? {
      forall m ensures m in v.machines ==> m in w.machines { assert MatchesAt(w, v, m); }
      a := CheckAlike(w, v, h);
    } else {
      WatchAlike(w, v, h, c);
    }
    next := DoWatch(v, h, a);
    assert next == Step(v, Watch(h, a));
    StepKeeps(v, Watch(h, a));
    StepExclusive(v, Watch(h, a));
    WatchLeavesAlone(w, h, c);
    WatchLeavesAlone(v, h, a);
    forall m ensures MatchesAt(DoWatch(w, h, c), next, m) {
      assert MatchesAt(w, v, m);
      if IsGhost(w, v, m) {
        WatchEvolves(w, h, c, HostOf(w, m), m);
        GhostStays(w, DoWatch(w, h, c), m);
      }
    }
  }

  /** A Host reconcile reads hosts and probes. */
  lemma {:induction false} WatchAlike(w: World, v: World, h: string, c: HostCall)
    requires SameHosts(w, v) && CanWatch(w, h, c) && !c.HostCheck?
    ensures CanWatch(v, h, c) && SameHosts(DoWatch(w, h, c), DoWatch(v, h, c))
  {
    match c
    case HostBegin =>
    case HostProbe(answers) => ProbeAlike(w, v, h, answers);
    case HostWrite => WriteAlike(w, v, h);
    case HostRemove =>
    case HostCrash =>
  }

  lemma {:induction false} ProbeAlike(w: World, v: World, h: string, answers: bool)
    requires SameHosts(w, v) && CanWatch(w, h, HostProbe(answers))
    ensures CanWatch(v, h, HostProbe(answers)) && SameHosts(DoHostProbe(w, h, answers), DoHostProbe(v, h, answers))
  {
  }

  lemma {:induction false} WriteAlike(w: World, v: World, h: string)
    requires SameHosts(w, v) && CanWatch(w, h, HostWrite)
    ensures CanWatch(v, h, HostWrite) && SameHosts(DoHostWrite(w, h), DoHostWrite(v, h))
  {
  }

  /** Only the check for a claimant can tell a ghost from nobody, and a ghost makes it
      wait. */
  lemma {:induction false} CheckAlike(w: World, v: World, h: string) returns (a: HostCall)
    requires SameHosts(w, v) && CanWatch(w, h, HostCheck)
    requires forall m :: m in v.machines ==> m in w.machines
    ensures a == HostCheck || a == HostCrash
    ensures CanWatch(v, h, a) && SameHosts(DoHostCheck(w, h), DoWatch(v, h, a))
  {
    var claim := w.probes[h].seen.claimRef;
    a := if claim.Some? && claim.value.machine in w.machines then HostCrash else HostCheck;
  }
}
