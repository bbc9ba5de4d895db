/** A machine's tenancy of a host: from its claim, or from a clusterctl move that
    carried only its label, until the machine or the host is deleted. */
module Tenancy {
  import opened Objects
  import opened Claims
  import opened ClaimSafety
  import opened ClaimTheorems

  /** Whatever m's reconcile has in its hands is h. */
  ghost predicate Towards(p: Pass, h: string) {
    match p
    case Begun(read) => read.hostRef == None || read.hostRef == Some(h)
    case Walking(_, _, _) => false
    case Recording(g, _) => g == h
    case Holding(g, _) => g == h
    case Finishing(ref) => ref == None || ref == Some(h)
    case _ => false
  }

  /** Labelled for m and claimed by m or by nobody; or unlabelled by m's own release,
      with m's claim still on it. */
  ghost predicate ReservedHost(w: World, m: string, x: Host) {
    || (x.claimedBy == Some(m) && (x.claimRef == Some(Me(w, m)) || (x.claimRef == None && x.phase != Available)))
    || (x.claimedBy == None && x.claimRef == Some(Me(w, m)))
  }

  ghost predicate OwnedHost(w: World, m: string, x: Host) {
    && !x.deleting && x.claimedBy == Some(m)
    && (x.claimRef == Some(Me(w, m)) || (x.claimRef == None && x.phase != Available))
  }

  ghost predicate OwnedBy(w: World, m: string, h: string) {
    && m in w.machines && !w.machines[m].deleting
    && (w.machines[m].hostRef == None || w.machines[m].hostRef == Some(h))
    && (m in w.passes ==> Towards(w.passes[m], h))
  }

  /** h is m's: labelled with its name, claimed by it or not claimed at all, and out
      of everyone else's reach. */
  ghost predicate Owned(w: World, m: string, h: string) {
    && OwnedBy(w, m, h) && h in w.hosts && OwnedHost(w, m, w.hosts[h])
    && (h in w.probes ==> !w.probes[h].Checking? && !w.probes[h].Removing?)
  }

  /** The steps that end a tenancy. */
  predicate Ends(a: Action, m: string, h: string) {
    a == Operate(DeleteMachine(m)) || a == Operate(DeleteHost(h))
  }

  // ---- steps of others

  /** Nobody else may write the host: to label it it would have to be free and
      Available, to claim it it would have to carry that name, and to release or
      provision it the claim would have to be theirs. */
  lemma {:induction false} OthersSpareHost(w: World, m: string, h: string, k: string, c: Call)
    requires Inv(w) && h in w.hosts && ReservedHost(w, m, w.hosts[h]) && k != m && CanReconcile(w, k, c)
    ensures h in DoReconcile(w, k, c).hosts && DoReconcile(w, k, c).hosts[h] == w.hosts[h]
  {
    match c
    case Walk => NobodyWalksOff(w, m, h, k);
    case Record => OthersCannotWrite(w, m, h, k, c);
    case MarkProvisioned => OthersCannotWrite(w, m, h, k, c);
    case Unlabel => OthersCannotWrite(w, m, h, k, c);
    case Clear => OthersCannotWrite(w, m, h, k, c);
    case Look(order) => LookFramedHosts(w, k, order);
    case _ =>
  }

  lemma {:induction false} OthersCannotWrite(w: World, m: string, h: string, k: string, c: Call)
    requires Inv(w) && h in w.hosts && ReservedHost(w, m, w.hosts[h]) && k != m && CanReconcile(w, k, c)
    requires c.Record? || c.MarkProvisioned? || c.Unlabel? || c.Clear?
    ensures h in DoReconcile(w, k, c).hosts && DoReconcile(w, k, c).hosts[h] == w.hosts[h]
  {
    assert PassOk(w, k, w.passes[k]);
    assert k in w.machines ==> MachineOk(w, k, w.machines[k]);
  }

  /** A reserved host is not up for a fresh claim, not even m's. */
  lemma {:induction false} NobodyWalksOff(w: World, m: string, h: string, k: string)
    requires Inv(w) && h in w.hosts && ReservedHost(w, m, w.hosts[h]) && CanReconcile(w, k, Walk)
    ensures h in DoWalk(w, k).hosts && DoWalk(w, k).hosts[h] == w.hosts[h]
  {
    var Walking(selector, list, rest) := w.passes[k];
    assert PassOk(w, k, w.passes[k]);
    assert HostOk(w, h, w.hosts[h]);
    if rest != [] && rest[0] == h {
      assert Copy(w, h, list[h]);
      assert !(Fresh(w, h, list[h]) && Eligible(list[h], selector));
    }
  }

  lemma {:induction false} LookFramedHosts(w: World, k: string, order: seq<string>)
    requires k in w.passes && w.passes[k].Begun?
    ensures DoLook(w, k, order).hosts == w.hosts
  {
  }

  lemma {:induction false} StrangerKeepsOwned(w: World, m: string, h: string, k: string, c: Call)
    requires Inv(w) && Owned(w, m, h) && k != m && CanReconcile(w, k, c)
    ensures Owned(DoReconcile(w, k, c), m, h)
  {
    OthersSpareHost(w, m, h, k, c);
    ReconcileFramed(w, k, c, m);
  }

  /** A probe of the host: the label keeps it from being called Available. */
  lemma {:induction false} WatchKeepsOwned(w: World, m: string, h: string, k: string, c: HostCall)
    requires Inv(w) && Owned(w, m, h) && CanWatch(w, k, c)
    ensures Owned(DoWatch(w, k, c), m, h)
  {
    match c
    case HostWrite => WriteKeepsOwned(w, m, h, k);
    case HostBegin =>
    case HostCheck =>
    case HostProbe(_) =>
    case HostRemove =>
    case HostCrash =>
  }

  lemma {:induction false} WriteKeepsOwned(w: World, m: string, h: string, k: string)
    requires Inv(w) && Owned(w, m, h) && CanWatch(w, k, HostWrite)
    ensures Owned(DoHostWrite(w, k), m, h)
  {
    assert ProbeOk(w, k, w.probes[k]);
  }

  lemma {:induction false} OperateKeepsOwned(w: World, m: string, h: string, op: Operation)
    requires Inv(w) && Owned(w, m, h) && CanOperate(w, op) && !Ends(Operate(op), m, h)
    ensures Owned(DoOperate(w, op), m, h)
  {
    assert MachineOk(w, m, w.machines[m]) && HostOk(w, h, w.hosts[h]);
    match op
    case AddHost(_, _, _) =>
    case EditHost(_, _, _) =>
    case DeleteHost(_) =>
    case AddMachine(_, _) =>
    case DeleteMachine(_) =>
    case Move =>
  }

  // ---- m's own steps

  /** The only host m can recover, by claim or by label, is h. */
  lemma {:induction false} RecoversOwn(w: World, m: string, h: string, order: seq<string>)
    requires Inv(w) && Owned(w, m, h) && CanReconcile(w, m, Look(order))
    ensures Owned(DoLook(w, m, order), m, h)
  {
    if w.passes[m].read.hostRef.None? {
      assert h in order;
      var c, l := FirstClaimed(order, w.hosts, Me(w, m)), FirstLabelled(order, w.hosts, m);
      if c.Some? {
        assert HostOk(w, c.value, w.hosts[c.value]);
        assert c.value == h;
      } else {
        assert l.Some? && l.value == h;
      }
    }
  }

  lemma {:induction false} OwnStepKeepsOwned(w: World, m: string, h: string, c: Call)
    requires Inv(w) && Owned(w, m, h) && CanReconcile(w, m, c)
    ensures Owned(DoReconcile(w, m, c), m, h)
  {
    assert m in w.passes ==> PassOk(w, m, w.passes[m]);
    match c
    case Look(order) => RecoversOwn(w, m, h, order);
    case Begin =>
    case Record =>
    case MarkProvisioned =>
    case GiveUp =>
    case Patch =>
    case _ =>
  }

  lemma {:induction false} StepKeepsOwned(w: World, m: string, h: string, a: Action)
    requires Inv(w) && Owned(w, m, h) && !Ends(a, m, h)
    ensures Owned(Step(w, a), m, h)
  {
    if Enabled(w, a) {
      match a
      case Operate(op) => OperateKeepsOwned(w, m, h, op);
      case Reconcile(k, c) => if k == m { OwnStepKeepsOwned(w, m, h, c); } else { StrangerKeepsOwned(w, m, h, k, c); }
      case Watch(k, c) => WatchKeepsOwned(w, m, h, k, c);
    }
  }

  lemma {:induction false} RunKeepsOwned(w: World, m: string, h: string, actions: seq<Action>)
    requires Inv(w) && Owned(w, m, h) && NoLostPatch(actions)
    requires forall i :: 0 <= i < |actions| ==> !Ends(actions[i], m, h)
    ensures Inv(Run(w, actions)) && Owned(Run(w, actions), m, h)
    decreases |actions|
  {
    if actions != [] {
      StepKeeps(w, actions[0]);
      StepKeepsOwned(w, m, h, actions[0]);
      RunKeepsOwned(Step(w, actions[0]), m, h, actions[1..]);
    }
  }

  // ---- what a tenancy means

  lemma {:induction false} OwnedMeans(w: World, m: string, h: string, k: string, g: string)
    requires Inv(w) && Owned(w, m, h)
    ensures Holds(w, m, g) ==> g == h
    ensures Holds(w, k, h) ==> k == m
    ensures !Takes(w, k, h)
  {
    if Holds(w, k, h) { HolderIsClaimant(w, k, h); }
    if Takes(w, k, h) { NobodyWalksOff(w, m, h, k); }
  }

  /** A recorded claim starts a tenancy. */
  lemma {:induction false} RecordStartsTenancy(w: World, m: string, h: string)
    requires Inv(w) && CanReconcile(w, m, Record) && w.passes[m].host == h && Fresh(w, h, w.passes[m].seen)
    requires m in w.machines && !w.machines[m].deleting && !w.hosts[h].deleting
    requires h in w.probes ==> !w.probes[h].Checking? && !w.probes[h].Removing?
    ensures Owned(DoRecord(w, m), m, h)
  {
    assert PassOk(w, m, w.passes[m]);
  }

  /** A move turns every label of a live machine into a tenancy. */
  lemma {:induction false} MoveStartsTenancy(w: World, m: string, h: string)
    requires Inv(w) && CanOperate(w, Move)
    requires m in w.machines && h in w.hosts && w.hosts[h].claimedBy == Some(m)
    ensures Owned(DoMove(w), m, h)
  {
  }

  /** After a move that empties all status and renews all UIDs, in every later
      interleaving in which neither the machine nor the host is deleted: a machine whose
      name labels a host can have only that host, nobody else has it or can take it, and
      the label stays. */
  lemma {:induction false} MoveKeepsAssignment(before: seq<Action>, m: string, h: string, later: seq<Action>, k: string, g: string)
    requires NoLostPatch(before) && NoLostPatch(later)
    requires CanOperate(Run(Empty, before), Move)
    requires m in Run(Empty, before).machines && h in Run(Empty, before).hosts
    requires Run(Empty, before).hosts[h].claimedBy == Some(m)
    requires forall i :: 0 <= i < |later| ==> !Ends(later[i], m, h)
    ensures
      var w := Run(DoMove(Run(Empty, before)), later);
      && h in w.hosts && w.hosts[h].claimedBy == Some(m)
      && (w.hosts[h].claimRef == None || w.hosts[h].claimRef == Some(Me(w, m)))
      && (Holds(w, m, g) ==> g == h)
      && (Holds(w, k, h) ==> k == m)
      && !Takes(w, k, h)
  {
    RunKeeps(Empty, before);
    var v := Run(Empty, before);
    MoveKeeps(v);
    MoveStartsTenancy(v, m, h);
    RunKeepsOwned(DoMove(v), m, h, later);
    OwnedMeans(Run(DoMove(v), later), m, h, k, g);
  }
}
