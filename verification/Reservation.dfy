/** From a claim, or from a move that carried only its label, a host is reserved for
    its machine until it is released, whatever is deleted meanwhile: the machine, the
    host, or both. */
module Reservation {
  import opened Objects
  import opened Claims
  import opened ClaimSafety
  import opened ClaimTheorems
  import opened Tenancy

  /** Whatever m's reconcile, a delete pass included, has in its hands is h. */
  ghost predicate Heading(p: Pass, h: string) {
    match p
    case Begun(read) => read.hostRef == None || read.hostRef == Some(h)
    case Walking(_, _, _) => false
    case Recording(g, _) => g == h
    case Holding(g, _) => g == h
    case Finishing(ref) => ref == None || ref == Some(h)
    case Deleting(ref) => ref == None || ref == Some(h)
    case Resetting(g, _) => g == h
    case Clearing(g, _) => g == h
    case Released(_) => false
    case Leaving => true
  }

  ghost predicate BoundFor(w: World, m: string, h: string) {
    && (m in w.machines ==> w.machines[m].hostRef == None || w.machines[m].hostRef == Some(h))
    && (m in w.passes ==> Heading(w.passes[m], h))
  }

  ghost predicate NoOtherHolder(w: World, m: string, h: string) {
    forall k :: k != m ==> !Holds(w, k, h)
  }

  ghost predicate Reserved(w: World, m: string, h: string) {
    && h in w.hostNames && m in w.machineNames && NoOtherHolder(w, m, h)
    && (h in w.hosts ==> ReservedHost(w, m, w.hosts[h]) && BoundFor(w, m, h))
  }

  // ---- the host

  /** m's own writes: the claim, the phase, and the label its release takes off. */
  lemma {:induction false} OwnWritesKeepHost(w: World, m: string, h: string, c: Call)
    requires Inv(w) && h in w.hosts && ReservedHost(w, m, w.hosts[h]) && CanReconcile(w, m, c)
    requires c.Record? || c.MarkProvisioned? || c.Unlabel?
    ensures h in DoReconcile(w, m, c).hosts && ReservedHost(DoReconcile(w, m, c), m, DoReconcile(w, m, c).hosts[h])
  {
    assert PassOk(w, m, w.passes[m]);
    assert m in w.machines ==> MachineOk(w, m, w.machines[m]);
  }

  lemma {:induction false} OwnClearKeepsHost(w: World, m: string, h: string)
    requires h in w.hosts && ReservedHost(w, m, w.hosts[h]) && CanReconcile(w, m, Clear)
    requires !Releases(w, Reconcile(m, Clear), h)
    ensures h in DoClear(w, m).hosts && ReservedHost(DoClear(w, m), m, DoClear(w, m).hosts[h])
  {
  }

  lemma {:induction false} OwnStepKeepsHost(w: World, m: string, h: string, c: Call)
    requires Inv(w) && h in w.hosts && ReservedHost(w, m, w.hosts[h]) && CanReconcile(w, m, c)
    requires !Releases(w, Reconcile(m, c), h)
    ensures h in DoReconcile(w, m, c).hosts && ReservedHost(DoReconcile(w, m, c), m, DoReconcile(w, m, c).hosts[h])
  {
    match c
    case Walk =>
      NobodyWalksOff(w, m, h, m);
      ReconcileFramed(w, m, c, m + "'");
    case Look(order) => LookFramedHosts(w, m, order);
    case Record => OwnWritesKeepHost(w, m, h, c);
    case MarkProvisioned => OwnWritesKeepHost(w, m, h, c);
    case Unlabel => OwnWritesKeepHost(w, m, h, c);
    case Clear => OwnClearKeepsHost(w, m, h);
    case _ =>
  }

  lemma {:induction false} WatchKeepsHost(w: World, m: string, h: string, k: string, c: HostCall)
    requires Inv(w) && h in w.hosts && ReservedHost(w, m, w.hosts[h]) && CanWatch(w, k, c)
    ensures h in DoWatch(w, k, c).hosts ==> ReservedHost(DoWatch(w, k, c), m, DoWatch(w, k, c).hosts[h])
  {
    match c
    case HostWrite => WriteKeepsHost(w, m, h, k);
    case HostBegin =>
    case HostCheck =>
    case HostProbe(_) =>
    case HostRemove =>
    case HostCrash =>
  }

  lemma {:induction false} WriteKeepsHost(w: World, m: string, h: string, k: string)
    requires Inv(w) && h in w.hosts && ReservedHost(w, m, w.hosts[h]) && CanWatch(w, k, HostWrite)
    ensures h in DoHostWrite(w, k).hosts ==> ReservedHost(DoHostWrite(w, k), m, DoHostWrite(w, k).hosts[h])
  {
    assert ProbeOk(w, k, w.probes[k]);
  }

  /** A move finds no release under way: it waits until nothing is being deleted. */
  lemma {:induction false} OperateKeepsHost(w: World, m: string, h: string, op: Operation)
    requires Inv(w) && h in w.hosts && ReservedHost(w, m, w.hosts[h]) && CanOperate(w, op)
    ensures h in DoOperate(w, op).hosts && ReservedHost(DoOperate(w, op), m, DoOperate(w, op).hosts[h])
  {
    assert HostOk(w, h, w.hosts[h]);
    match op
    case AddHost(_, _, _) => NamesKnown(w);
    case EditHost(_, _, _) =>
    case DeleteHost(_) =>
    case AddMachine(_, _) =>
    case DeleteMachine(_) =>
    case Move =>
  }

  // ---- the machine

  lemma {:induction false} ClaimNamesReserved(w: World, m: string, h: string, g: string)
    requires Inv(w) && h in w.hosts && ReservedHost(w, m, w.hosts[h]) && BoundFor(w, m, h)
    requires g in w.hosts && w.hosts[g].claimRef == Some(Me(w, m))
    ensures g == h
  {
    assert HostOk(w, g, w.hosts[g]) && HostOk(w, h, w.hosts[h]);
  }

  /** The only host m can recover, by claim or by label, is h. */
  lemma {:induction false} RecoversReserved(w: World, m: string, h: string, order: seq<string>)
    requires Inv(w) && h in w.hosts && ReservedHost(w, m, w.hosts[h]) && BoundFor(w, m, h) && CanReconcile(w, m, Look(order))
    ensures BoundFor(DoLook(w, m, order), m, h)
  {
    if w.passes[m].read.hostRef.None? {
      assert h in order;
      var c, l := FirstClaimed(order, w.hosts, Me(w, m)), FirstLabelled(order, w.hosts, m);
      if c.Some? {
        ClaimNamesReserved(w, m, h, c.value);
      } else {
        assert l.Some? && l.value == h;
      }
    }
  }

  lemma {:induction false} OwnWritesStayBound(w: World, m: string, h: string, c: Call)
    requires h in w.hosts && BoundFor(w, m, h) && CanReconcile(w, m, c) && !Releases(w, Reconcile(m, c), h)
    requires c.Record? || c.MarkProvisioned? || c.Unlabel? || c.Clear?
    ensures BoundFor(DoReconcile(w, m, c), m, h)
  {
    assert w.passes[m].host == h;
  }

  lemma {:induction false} OwnStepStaysBound(w: World, m: string, h: string, c: Call)
    requires Inv(w) && h in w.hosts && ReservedHost(w, m, w.hosts[h]) && BoundFor(w, m, h) && CanReconcile(w, m, c)
    requires !Releases(w, Reconcile(m, c), h) && !c.LosePatch?
    ensures BoundFor(DoReconcile(w, m, c), m, h)
  {
    match c
    case Look(order) => RecoversReserved(w, m, h, order);
    case Record => OwnWritesStayBound(w, m, h, c);
    case MarkProvisioned => OwnWritesStayBound(w, m, h, c);
    case Unlabel => OwnWritesStayBound(w, m, h, c);
    case Clear => OwnWritesStayBound(w, m, h, c);
    case Begin =>
    case GiveUp =>
    case Patch =>
    case Fetch =>
    case Crash =>
    case Drop =>
    case Walk =>
  }

  lemma {:induction false} OperateStaysBound(w: World, m: string, h: string, op: Operation)
    requires m in w.machineNames && BoundFor(w, m, h) && CanOperate(w, op)
    ensures BoundFor(DoOperate(w, op), m, h)
  {
    match op
    case AddHost(_, _, _) =>
    case EditHost(_, _, _) =>
    case DeleteHost(_) =>
    case AddMachine(_, _) =>
    case DeleteMachine(_) =>
    case Move =>
  }

  // ---- every step

  lemma {:induction false} StepKeepsHost(w: World, m: string, h: string, a: Action)
    requires Inv(w) && Reserved(w, m, h) && !LosesPatch(a) && !Releases(w, a, h) && h in Step(w, a).hosts
    ensures h in w.hosts && ReservedHost(Step(w, a), m, Step(w, a).hosts[h]) && BoundFor(Step(w, a), m, h)
  {
    HostsDoNotReturn(w, h, a);
    if Enabled(w, a) {
      match a
      case Operate(op) =>
        OperateKeepsHost(w, m, h, op);
        OperateStaysBound(w, m, h, op);
      case Watch(k, c) =>
        WatchKeepsHost(w, m, h, k, c);
        WatchLeavesAlone(w, k, c);
      case Reconcile(k, c) =>
        if k == m {
          OwnStepKeepsHost(w, m, h, c);
          OwnStepStaysBound(w, m, h, c);
        } else {
          OthersSpareHost(w, m, h, k, c);
          ReconcileFramed(w, k, c, m);
        }
    }
  }

  /** A host whose name was given out and that is gone stays gone. */
  lemma {:induction false} HostsDoNotReturn(w: World, h: string, a: Action)
    requires h in w.hostNames
    ensures h in Step(w, a).hosts ==> h in w.hosts
    ensures h in Step(w, a).hostNames
  {
    if Enabled(w, a) {
      match a
      case Operate(op) =>
      case Reconcile(k, c) => ReconcileFramed(w, k, c, k + "'");
      case Watch(k, c) =>
    }
  }

  lemma {:induction false} MachineNamesStay(w: World, m: string, a: Action)
    requires m in w.machineNames
    ensures m in Step(w, a).machineNames
  {
    if Enabled(w, a) {
      match a
      case Operate(op) =>
      case Reconcile(k, c) => ReconcileFramed(w, k, c, k + "'");
      case Watch(k, c) =>
    }
  }

  lemma {:induction false} StepKeepsReserved(w: World, m: string, h: string, a: Action)
    requires Inv(w) && Reserved(w, m, h) && !LosesPatch(a) && !Releases(w, a, h)
    ensures Inv(Step(w, a)) && Reserved(Step(w, a), m, h)
  {
    var w' := Step(w, a);
    StepKeeps(w, a);
    HostsDoNotReturn(w, h, a);
    MachineNamesStay(w, m, a);
    if h in w'.hosts { StepKeepsHost(w, m, h, a); }
    forall k | k != m ensures !Holds(w', k, h) {
      OnlyClaimingMakesHolders(w, a, k, h);
      if h in w'.hosts {
        if Holds(w', k, h) { HolderIsClaimant(w', k, h); }
      } else if a.Reconcile? && Enabled(w, a) {
        ReconcileKeepsHosts(w, a.machine, a.call);
      }
    }
  }

  ghost predicate NoRelease(w: World, actions: seq<Action>, h: string)
    decreases |actions|
  {
    actions == [] || (!Releases(w, actions[0], h) && NoRelease(Step(w, actions[0]), actions[1..], h))
  }

  lemma {:induction false} RunKeepsReserved(w: World, m: string, h: string, actions: seq<Action>)
    requires Inv(w) && Reserved(w, m, h) && NoLostPatch(actions) && NoRelease(w, actions, h)
    ensures Inv(Run(w, actions)) && Reserved(Run(w, actions), m, h)
    decreases |actions|
  {
    if actions != [] {
      StepKeepsReserved(w, m, h, actions[0]);
      RunKeepsReserved(Step(w, actions[0]), m, h, actions[1..]);
    }
  }

  // ---- what it means, and how it begins

  lemma {:induction false} ReservedMeans(w: World, m: string, h: string, k: string, g: string)
    requires Inv(w) && Reserved(w, m, h)
    ensures k != m ==> !Holds(w, k, h)
    ensures !Takes(w, k, h)
    ensures h in w.hosts && Holds(w, m, g) ==> g == h
  {
    if Takes(w, k, h) { NobodyWalksOff(w, m, h, k); }
  }

  lemma {:induction false} OwnedIsReserved(w: World, m: string, h: string)
    requires Inv(w) && Owned(w, m, h)
    ensures Reserved(w, m, h)
  {
    assert HostOk(w, h, w.hosts[h]) && MachineOk(w, m, w.machines[m]);
    forall k | k != m ensures !Holds(w, k, h) { OwnedMeans(w, m, h, k, h); }
  }

  /** After a move that empties all status, renews all UIDs and keeps labels, in every
      later interleaving, deletions of the machine and of the host included: until the
      host is released, nobody but the machine its label names holds it, nobody takes
      it, and while it exists that machine has no other host. */
  lemma {:induction false} NobodyElseBeforeRelease(before: seq<Action>, m: string, h: string, later: seq<Action>, k: string, g: string)
    requires NoLostPatch(before) && NoLostPatch(later)
    requires CanOperate(Run(Empty, before), Move)
    requires m in Run(Empty, before).machines && h in Run(Empty, before).hosts
    requires Run(Empty, before).hosts[h].claimedBy == Some(m)
    requires NoRelease(DoMove(Run(Empty, before)), later, h)
    ensures
      var w := Run(DoMove(Run(Empty, before)), later);
      && (k != m ==> !Holds(w, k, h))
      && !Takes(w, k, h)
      && (h in w.hosts && Holds(w, m, g) ==> g == h)
  {
    RunKeeps(Empty, before);
    var v := Run(Empty, before);
    MoveKeeps(v);
    MoveStartsTenancy(v, m, h);
    OwnedIsReserved(DoMove(v), m, h);
    RunKeepsReserved(DoMove(v), m, h, later);
    ReservedMeans(Run(DoMove(v), later), m, h, k, g);
  }

  /** The same for a host that was claimed rather than moved. */
  lemma {:induction false} NobodyElseAfterClaim(before: seq<Action>, m: string, h: string, later: seq<Action>, k: string, g: string)
    requires NoLostPatch(before) && NoLostPatch(later)
    requires Owned(Run(Empty, before), m, h) && NoRelease(Run(Empty, before), later, h)
    ensures
      var w := Run(Run(Empty, before), later);
      && (k != m ==> !Holds(w, k, h))
      && !Takes(w, k, h)
      && (h in w.hosts && Holds(w, m, g) ==> g == h)
  {
    RunKeeps(Empty, before);
    OwnedIsReserved(Run(Empty, before), m, h);
    RunKeepsReserved(Run(Empty, before), m, h, later);
    ReservedMeans(Run(Run(Empty, before), later), m, h, k, g);
  }
}
