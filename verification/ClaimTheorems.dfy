/** What the invariant of the claim protocol means for its users, over every run. */
module ClaimTheorems {
  import opened Objects
  import opened Claims
  import opened ClaimSafety

  // ---- runs

  lemma {:induction false} RunConcat(w: World, a: seq<Action>, b: seq<Action>)
    ensures Run(w, a + b) == Run(Run(w, a), b)
    decreases |a|
  {
    if a == [] {
      assert a + b == b;
    } else {
      assert (a + b)[0] == a[0] && (a + b)[1..] == a[1..] + b;
      RunConcat(Step(w, a[0]), a[1..], b);
    }
  }

  lemma {:induction false} RunOne(w: World, a: Action)
    ensures Run(w, [a]) == Step(w, a)
  {
    var v := Step(w, a);
    assert Run(v, []) == v;
    assert [a][1..] == [];
  }

  lemma {:induction false} RunLast(w: World, actions: seq<Action>)
    requires actions != []
    ensures Run(w, actions) == Step(Run(w, actions[..|actions| - 1]), actions[|actions| - 1])
  {
    var n := |actions| - 1;
    assert actions == actions[..n] + [actions[n]];
    RunConcat(w, actions[..n], [actions[n]]);
    RunOne(Run(w, actions[..n]), actions[n]);
  }

  // ---- exclusive hosts

  /** m has host h: recorded on the machine, or in the hands of its reconcile. */
  ghost predicate Holds(w: World, m: string, h: string) {
    || (m in w.machines && w.machines[m].hostRef == Some(h) && !ReleaseWritten(w, m))
    || (m in w.passes && w.passes[m].Holding? && w.passes[m].host == h)
    || (m in w.passes && w.passes[m] == Finishing(Some(h)))
  }

  ghost predicate LiveHolder(w: World, m: string, h: string) {
    Holds(w, m, h) && m in w.machines && !w.machines[m].deleting
  }

  ghost predicate Exclusive(w: World) {
    forall h, m, n :: Holds(w, m, h) && Holds(w, n, h) ==> m == n
  }

  /** A machine that has a host which still exists is the one its claimRef names. */
  lemma {:induction false} HolderIsClaimant(w: World, m: string, h: string)
    requires Inv(w) && Holds(w, m, h) && h in w.hosts
    ensures w.hosts[h].claimRef == Some(Me(w, m))
  {
    assert m in w.machines ==> MachineOk(w, m, w.machines[m]);
    assert m in w.passes ==> PassOk(w, m, w.passes[m]);
  }

  function PassOf(w: World, m: string): Option<Pass> {
    if m in w.passes then Some(w.passes[m]) else None
  }

  function RefOf(w: World, m: string): Option<string> {
    if m in w.machines then w.machines[m].hostRef else None
  }

  lemma {:induction false} OperateLeavesAlone(w: World, op: Operation, m: string)
    requires CanOperate(w, op) && !op.Move?
    ensures DoOperate(w, op).passes == w.passes
    ensures RefOf(DoOperate(w, op), m) == RefOf(w, m) || RefOf(DoOperate(w, op), m) == None
  {
  }

  function MachineOf(w: World, m: string): Option<Machine> {
    if m in w.machines then Some(w.machines[m]) else None
  }

  /** What a reconcile of one machine never touches, seen from machine k. */
  ghost predicate Framed(w: World, w': World, k: string) {
    && w'.hosts.Keys == w.hosts.Keys && w'.probes == w.probes && w'.era == w.era
    && w'.hostNames == w.hostNames && w'.machineNames == w.machineNames
    && w'.confirmed <= w.confirmed
    && PassOf(w', k) == PassOf(w, k) && MachineOf(w', k) == MachineOf(w, k)
  }

  lemma {:induction false} WalkFramed(w: World, m: string, k: string)
    requires CanReconcile(w, m, Walk) && k != m
    ensures Framed(w, DoWalk(w, m), k)
  {
  }

  lemma {:induction false} ReconcileFramed(w: World, m: string, c: Call, k: string)
    requires CanReconcile(w, m, c) && k != m
    ensures Framed(w, DoReconcile(w, m, c), k)
  {
    match c
    case Look(order) =>
    case Walk => WalkFramed(w, m, k);
    case Record =>
    case MarkProvisioned =>
    case Unlabel =>
    case Clear =>
    case _ =>
  }

  lemma {:induction false} ReconcileKeepsHosts(w: World, m: string, c: Call)
    requires CanReconcile(w, m, c)
    ensures DoReconcile(w, m, c).hosts.Keys == w.hosts.Keys
  {
    ReconcileFramed(w, m, c, m + "'");
  }

  lemma {:induction false} WatchLeavesAlone(w: World, h: string, c: HostCall)
    requires CanWatch(w, h, c)
    ensures DoWatch(w, h, c).passes == w.passes && DoWatch(w, h, c).machines == w.machines
  {
  }

  /** A reconcile comes to hold a host only by reading or writing it in the store. */
  lemma {:induction false} AcquiringHolds(w: World, m: string, c: Call, h: string)
    requires CanReconcile(w, m, c) && (c.Look? || c.Record?) && Holds(DoReconcile(w, m, c), m, h)
    ensures Holds(w, m, h) || h in w.hosts
  {
  }

  lemma {:induction false} CarryingHolds(w: World, m: string, c: Call, h: string)
    requires CanReconcile(w, m, c) && !c.Look? && !c.Record? && !c.LosePatch? && Holds(DoReconcile(w, m, c), m, h)
    requires m in w.passes ==> PassOk(w, m, w.passes[m])
    ensures Holds(w, m, h)
  {
    if c.Begin? || c.Walk? || c.Fetch? || c.Clear? || c.Drop? || c.Crash? {
    } else if c.MarkProvisioned? || c.Patch? {
    } else {
    }
  }

  /** A machine comes to hold a host only by its own reconcile recording a claim, or
      finding one it had made. */
  lemma {:induction false} OnlyClaimingMakesHolders(w: World, a: Action, m: string, h: string)
    requires Inv(w) && !LosesPatch(a)
    ensures Holds(Step(w, a), m, h) && !Holds(w, m, h) ==>
              a.Reconcile? && a.machine == m && (a.call.Record? || a.call.Look?) && h in w.hosts
  {
    if Holds(Step(w, a), m, h) && Enabled(w, a) {
      match a
      case Operate(op) => if !op.Move? { OperateLeavesAlone(w, op, m); }
      case Watch(k, c) => WatchLeavesAlone(w, k, c);
      case Reconcile(k, c) =>
        if k != m {
          ReconcileFramed(w, k, c, m);
        } else if c.Look? || c.Record? {
          AcquiringHolds(w, m, c, h);
        } else {
          assert m in w.passes ==> PassOk(w, m, w.passes[m]);
          CarryingHolds(w, m, c, h);
        }
    }
  }

  lemma {:induction false} StepExclusive(w: World, a: Action)
    requires Inv(w) && Exclusive(w) && !LosesPatch(a)
    ensures Exclusive(Step(w, a))
  {
    var w' := Step(w, a);
    StepKeeps(w, a);
    forall h, m, n | Holds(w', m, h) && Holds(w', n, h)
      ensures m == n
    {
      if h in w'.hosts {
        HolderIsClaimant(w', m, h);
        HolderIsClaimant(w', n, h);
      } else {
        OnlyClaimingMakesHolders(w, a, m, h);
        OnlyClaimingMakesHolders(w, a, n, h);
        if a.Reconcile? && Enabled(w, a) { ReconcileKeepsHosts(w, a.machine, a.call); }
      }
    }
  }

  lemma {:induction false} RunExclusive(w: World, actions: seq<Action>)
    requires Inv(w) && Exclusive(w) && NoLostPatch(actions)
    ensures Inv(Run(w, actions)) && Exclusive(Run(w, actions))
    decreases |actions|
  {
    if actions != [] {
      StepKeeps(w, actions[0]);
      StepExclusive(w, actions[0]);
      RunExclusive(Step(w, actions[0]), actions[1..]);
    }
  }

  /** In every run from an empty pool no host is held by two machines, live or
      deleting, recorded or still in a reconcile's hands; and the holder of a host
      that still exists is the machine its claimRef names. */
  lemma {:induction false} NoHostHeldTwice(actions: seq<Action>, h: string, m: string, n: string)
    requires NoLostPatch(actions)
    ensures
      var w := Run(Empty, actions);
      && (Holds(w, m, h) && Holds(w, n, h) ==> m == n)
      && (Holds(w, m, h) && h in w.hosts ==> w.hosts[h].claimRef == Some(Me(w, m)))
  {
    RunExclusive(Empty, actions);
    var w := Run(Empty, actions);
    if Holds(w, m, h) && h in w.hosts { HolderIsClaimant(w, m, h); }
  }

  // ---- claim and label agree

  /** In every run: a claim's label is the claimant's name unless the claimant is
      taking it off in its own release, and a name labels at most one host. */
  lemma {:induction false} ClaimAndLabelAgree(actions: seq<Action>, h: string, k: string)
    requires NoLostPatch(actions)
    ensures
      var w := Run(Empty, actions);
      && (h in w.hosts && w.hosts[h].claimRef.Some? ==>
            var m := w.hosts[h].claimRef.value.machine;
            || w.hosts[h].claimedBy == Some(m)
            || (w.hosts[h].claimedBy == None && m in w.machines && w.machines[m].deleting && w.machines[m].hostRef == Some(h)))
      && (h in w.hosts && k in w.hosts && w.hosts[h].claimedBy.Some? && w.hosts[h].claimedBy == w.hosts[k].claimedBy ==> h == k)
  {
    RunKeeps(Empty, actions);
    var w := Run(Empty, actions);
    assert h in w.hosts ==> HostOk(w, h, w.hosts[h]);
  }

  // ---- only confirmed hosts are handed out

  /** This step returns host h to the pool. */
  ghost predicate Releases(w: World, a: Action, h: string) {
    && a.Reconcile? && a.call == Clear && Enabled(w, a)
    && w.passes[a.machine].host == h && Fresh(w, h, w.passes[a.machine].seen)
  }

  ghost predicate Moves(w: World, a: Action) {
    a == Operate(Move) && Enabled(w, a)
  }

  /** A probe answered on h at step i, and h was neither released nor moved since. */
  ghost predicate ConfirmedAt(w: World, actions: seq<Action>, h: string, i: nat) {
    && i < |actions| && actions[i] == Watch(h, HostProbe(true)) && Enabled(Run(w, actions[..i]), actions[i])
    && (forall j :: i < j < |actions| ==>
          !Releases(Run(w, actions[..j]), actions[j], h) && !Moves(Run(w, actions[..j]), actions[j]))
  }

  lemma {:induction false} ConfirmedStep(w: World, a: Action, h: string)
    requires h in Step(w, a).confirmed && !(a == Watch(h, HostProbe(true)) && Enabled(w, a))
    ensures h in w.confirmed && !Releases(w, a, h) && !Moves(w, a)
  {
    if Enabled(w, a) {
      match a
      case Operate(op) => assert !op.Move?;
      case Reconcile(m, c) => ReconcileFramed(w, m, c, m + "'");
      case Watch(k, c) =>
    }
  }

  lemma {:induction false} ConfirmedLater(w: World, actions: seq<Action>, h: string, i: nat)
    requires actions != []
    requires
      var n := |actions| - 1;
      && ConfirmedAt(w, actions[..n], h, i)
      && !Releases(Run(w, actions[..n]), actions[n], h) && !Moves(Run(w, actions[..n]), actions[n])
    ensures ConfirmedAt(w, actions, h, i)
  {
    var n := |actions| - 1;
    assert forall j :: 0 <= j <= n ==> actions[..n][..j] == actions[..j];
    forall j | i < j < |actions|
      ensures !Releases(Run(w, actions[..j]), actions[j], h) && !Moves(Run(w, actions[..j]), actions[j])
    {
      if j < n { assert actions[..n][j] == actions[j]; }
    }
  }

  lemma {:induction false} ConfirmedMeans(w: World, actions: seq<Action>, h: string)
    requires h !in w.confirmed && h in Run(w, actions).confirmed
    ensures exists i :: ConfirmedAt(w, actions, h, i)
    decreases |actions|
  {
    var n := |actions| - 1;
    RunLast(w, actions);
    var v := Run(w, actions[..n]);
    if actions[n] == Watch(h, HostProbe(true)) && Enabled(v, actions[n]) {
      assert ConfirmedAt(w, actions, h, n);
    } else {
      ConfirmedStep(v, actions[n], h);
      ConfirmedMeans(w, actions[..n], h);
      var i :| ConfirmedAt(w, actions[..n], h, i);
      ConfirmedLater(w, actions, h, i);
    }
  }

  /** m's next turn of the loop changes the label of h. */
  ghost predicate Takes(w: World, m: string, h: string) {
    h in w.hosts && CanReconcile(w, m, Walk) && DoWalk(w, m).hosts[h].claimedBy != w.hosts[h].claimedBy
  }

  lemma {:induction false} TakesEligible(w: World, m: string, h: string)
    requires Inv(w) && Takes(w, m, h)
    ensures Eligible(w.hosts[h], w.passes[m].selector)
  {
    assert PassOk(w, m, w.passes[m]);
    assert Copy(w, h, w.passes[m].list[h]);
  }

  /** Every requirement of the selector, by its operator. */
  ghost predicate Selects(selector: Selector, labels: Labels) {
    && (forall i :: 0 <= i < |selector| && selector[i].In? ==> selector[i].key in labels && labels[selector[i].key] in selector[i].values)
    && (forall i :: 0 <= i < |selector| && selector[i].NotIn? && selector[i].key in labels ==> labels[selector[i].key] !in selector[i].values)
    && (forall i :: 0 <= i < |selector| && selector[i].Exists? ==> selector[i].key in labels)
    && (forall i :: 0 <= i < |selector| && selector[i].DoesNotExist? ==> selector[i].key !in labels)
  }

  /** Eligible says: unclaimed, healthy, not being deleted, Available, and selected. */
  lemma {:induction false} EligibleIff(x: Host, selector: Selector)
    ensures Eligible(x, selector) <==>
            && x.claimRef == None && !x.unhealthy && !x.deleting && x.phase == Available && Selects(selector, x.labels)
  {
    if Selects(selector, x.labels) {
      forall i | 0 <= i < |selector| ensures Meets(x.labels, selector[i]) {}
    } else if Matches(x.labels, selector) {
      assert forall i :: 0 <= i < |selector| ==> Meets(x.labels, selector[i]);
    }
  }

  /** In every run: a host in phase Available has no claimRef, and the label of a
      fresh claim goes onto an unclaimed Available host on which a probe has answered
      since its last release. */
  lemma {:induction false} OnlyConfirmedHostsAreTaken(actions: seq<Action>, m: string, h: string)
    requires NoLostPatch(actions)
    ensures
      var w := Run(Empty, actions);
      && (h in w.hosts && w.hosts[h].phase == Available ==> w.hosts[h].claimRef == None)
      && (Takes(w, m, h) ==>
            && w.hosts[h].claimRef == None && w.hosts[h].phase == Available
            && !w.hosts[h].unhealthy && !w.hosts[h].deleting
            && Selects(w.passes[m].selector, w.hosts[h].labels)
            && exists i :: ConfirmedAt(Empty, actions, h, i))
  {
    RunKeeps(Empty, actions);
    var w := Run(Empty, actions);
    if h in w.hosts {
      assert HostOk(w, h, w.hosts[h]);
      if Takes(w, m, h) {
        TakesEligible(w, m, h);
        EligibleIff(w.hosts[h], w.passes[m].selector);
        ConfirmedMeans(Empty, actions, h);
      }
    }
  }
}
