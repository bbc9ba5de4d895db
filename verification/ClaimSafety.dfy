/** What every step of the claim protocol keeps. */
module ClaimSafety {
  import opened Objects
  import opened Claims

  // ---- the invariant, element by element

  /** A copy of a Host: never newer than the store, and exact while the version stands. */
  ghost predicate Copy(w: World, h: string, seen: Host) {
    && seen.version < w.clock
    && (Fresh(w, h, seen) ==> w.hosts[h] == seen)
  }

  ghost predicate ClaimIs(w: World, h: string, m: string) {
    h in w.hostNames && (h in w.hosts ==> w.hosts[h].claimRef == Some(Me(w, m)))
  }

  ghost predicate NoClaimBy(w: World, m: string) {
    forall h :: h in w.hosts ==> w.hosts[h].claimRef != Some(Me(w, m))
  }

  ghost predicate NoLabelBut(w: World, m: string, h: string) {
    forall k :: k in w.hosts && k != h ==> w.hosts[k].claimedBy != Some(m)
  }

  ghost predicate NoLabelBy(w: World, m: string) {
    forall h :: h in w.hosts ==> w.hosts[h].claimedBy != Some(m)
  }

  /** m's recorded host is none, or one of these. */
  ghost predicate RefWithin(w: World, m: string, h: string) {
    m in w.machines ==> w.machines[m].hostRef == None || w.machines[m].hostRef == Some(h)
  }

  ghost predicate RefGone(w: World, m: string) {
    m in w.machines && w.machines[m].hostRef.Some? ==>
      w.machines[m].hostRef.value in w.hostNames && w.machines[m].hostRef.value !in w.hosts
  }

  ghost predicate DeletingWith(w: World, m: string, ref: Option<string>) {
    m in w.machines && w.machines[m].deleting && w.machines[m].hostRef == ref
  }

  ghost predicate PassOk(w: World, m: string, p: Pass) {
    match p
    case Begun(read) =>
      && (m in w.machines ==> w.machines[m].hostRef == read.hostRef)
      && (read.hostRef.Some? ==> m in w.machines)
    case Walking(_, list, rest) =>
      && (forall h :: h in list ==> Copy(w, h, list[h]))
      && (forall h :: h in rest ==> h in list)
      && NoLabelBy(w, m) && NoClaimBy(w, m)
      && (m in w.machines ==> w.machines[m].hostRef == None)
    case Recording(h, seen) =>
      && Copy(w, h, seen) && seen.claimedBy == Some(m)
      && NoLabelBut(w, m, h) && NoClaimBy(w, m)
      && (m in w.machines ==> w.machines[m].hostRef == None)
    case Holding(h, seen) => Copy(w, h, seen) && ClaimIs(w, h, m) && RefWithin(w, m, h)
    case Finishing(ref) =>
      if ref.Some? then ClaimIs(w, ref.value, m) && RefWithin(w, m, ref.value) else RefGone(w, m)
    case Deleting(ref) => DeletingWith(w, m, ref)
    case Resetting(h, seen) => DeletingWith(w, m, Some(h)) && Copy(w, h, seen)
    case Clearing(h, seen) => DeletingWith(w, m, Some(h)) && Copy(w, h, seen) && seen.claimedBy == None
    case Released(h) => DeletingWith(w, m, Some(h)) && (h in w.hosts ==> w.hosts[h].claimRef != Some(Me(w, m)))
    case Leaving => m in w.machines && w.machines[m].deleting && RefGone(w, m)
  }

  ghost predicate ReleaseWritten(w: World, m: string) {
    m in w.passes && w.passes[m].Released?
  }

  ghost predicate MachineOk(w: World, m: string, x: Machine) {
    && m in w.machineNames
    && (x.deleting || x.hostRef.Some? ==> x.finalizer)
    && (x.hostRef.Some? ==> x.hostRef.value in w.hostNames)
    && (x.hostRef.Some? && !ReleaseWritten(w, m) ==> ClaimIs(w, x.hostRef.value, m))
  }

  /** The label agrees with the claim, unless the claimant's release is half done. */
  ghost predicate Agrees(w: World, h: string, x: Host) {
    x.claimRef.Some? ==>
      var m := x.claimRef.value.machine;
      x.claimedBy == Some(m) || (x.claimedBy == None && DeletingWith(w, m, Some(h)))
  }

  ghost predicate HostOk(w: World, h: string, x: Host) {
    && x.version < w.clock && h in w.hostNames
    && (x.claimRef.Some? ==> x.claimRef.value.era == w.era && x.claimRef.value.machine in w.machineNames)
    && (x.claimedBy.Some? ==> x.claimedBy.value in w.machineNames)
    && Agrees(w, h, x)
    && (x.phase == Available ==> x.claimRef == None && h in w.confirmed)
  }

  /** Nobody touched the claim since a probe saw an unconfirmed, unlabelled host. */
  ghost predicate Quiet(w: World, h: string, seen: Host) {
    seen.claimedBy == None && seen.phase != Available && h in w.hosts ==>
      w.hosts[h].claimedBy == None && w.hosts[h].claimRef == None && w.hosts[h].phase != Available
  }

  ghost predicate ProbeOk(w: World, h: string, p: Probe) {
    && h in w.hostNames
    && match p
       case Checking(_) => true
       case Probing(seen) => Quiet(w, h, seen)
       case Writing(seen, phase) =>
         && Quiet(w, h, seen) && phase != Provisioned
         && (phase == Available ==>
               seen.claimedBy == None && (seen.phase != Available && h in w.hosts ==> h in w.confirmed))
       case Removing => true
  }

  ghost predicate UniqueLabels(w: World) {
    forall h, k :: h in w.hosts && k in w.hosts && w.hosts[h].claimedBy.Some? && w.hosts[h].claimedBy == w.hosts[k].claimedBy
      ==> h == k
  }

  ghost predicate UniqueClaims(w: World) {
    forall h, k :: h in w.hosts && k in w.hosts && w.hosts[h].claimRef.Some? && w.hosts[h].claimRef == w.hosts[k].claimRef
      ==> h == k
  }

  ghost predicate HostsOk(w: World) {
    forall h :: h in w.hosts ==> HostOk(w, h, w.hosts[h])
  }

  ghost predicate MachinesOk(w: World) {
    forall m :: m in w.machines ==> MachineOk(w, m, w.machines[m])
  }

  ghost predicate PassesOkBut(w: World, but: Option<string>) {
    forall m :: m in w.passes && but != Some(m) ==> m in w.machineNames && PassOk(w, m, w.passes[m])
  }

  ghost predicate ProbesOk(w: World) {
    forall h :: h in w.probes ==> ProbeOk(w, h, w.probes[h])
  }

  /** The invariant, leaving out the pass of a machine whose step is under way. */
  ghost predicate InvBut(w: World, but: Option<string>) {
    && HostsOk(w) && MachinesOk(w) && PassesOkBut(w, but) && ProbesOk(w)
    && UniqueLabels(w) && UniqueClaims(w)
  }

  ghost predicate Inv(w: World) {
    InvBut(w, None)
  }

  // ---- moving one pass along

  lemma {:induction false} SetPassKeeps(w: World, m: string, p: Pass)
    requires InvBut(w, Some(m)) && m in w.machineNames && PassOk(w, m, p)
    requires ReleaseWritten(w, m) ==> p.Released?
    ensures Inv(SetPass(w, m, p))
  {
    var w' := SetPass(w, m, p);
    forall k | k in w'.machines
      ensures MachineOk(w', k, w'.machines[k])
    {
      assert MachineOk(w, k, w.machines[k]);
    }
    forall k | k in w'.passes
      ensures k in w'.machineNames && PassOk(w', k, w'.passes[k])
    {
      PassSame(w, w', k, w'.passes[k]);
    }
    OnlyPassesDiffer(w, w');
  }

  lemma {:induction false} EndPassKeeps(w: World, m: string)
    requires InvBut(w, Some(m)) && !ReleaseWritten(w, m)
    ensures Inv(EndPass(w, m))
  {
    var w' := EndPass(w, m);
    forall k | k in w'.machines
      ensures MachineOk(w', k, w'.machines[k])
    {
      assert MachineOk(w, k, w.machines[k]);
    }
    forall k | k in w'.passes
      ensures k in w'.machineNames && PassOk(w', k, w'.passes[k])
    {
      PassSame(w, w', k, w'.passes[k]);
    }
    OnlyPassesDiffer(w, w');
  }

  /** Passes look at nothing but hosts, machines, names and clocks. */
  lemma {:induction false} PassSame(w: World, w': World, m: string, p: Pass)
    requires w'.hosts == w.hosts && w'.machines == w.machines && w'.clock == w.clock && w'.era == w.era
    requires w.hostNames <= w'.hostNames
    requires PassOk(w, m, p)
    ensures PassOk(w', m, p)
  {
  }

  lemma {:induction false} OnlyPassesDiffer(w: World, w': World)
    requires w' == w.(passes := w'.passes)
    requires HostsOk(w) && ProbesOk(w) && UniqueLabels(w) && UniqueClaims(w)
    ensures HostsOk(w') && ProbesOk(w') && UniqueLabels(w') && UniqueClaims(w')
  {
    forall h | h in w'.hosts
      ensures HostOk(w', h, w'.hosts[h])
    {
      assert HostOk(w, h, w.hosts[h]);
    }
    forall h | h in w'.probes
      ensures ProbeOk(w', h, w'.probes[h])
    {
      assert ProbeOk(w, h, w.probes[h]);
    }
  }

  /** Whatever is stored or in flight has a name that was given out. */
  lemma {:induction false} NamesKnown(w: World)
    requires HostsOk(w) && MachinesOk(w) && ProbesOk(w)
    ensures w.hosts.Keys <= w.hostNames && w.probes.Keys <= w.hostNames && w.machines.Keys <= w.machineNames
  {
    forall k | k in w.hosts.Keys
      ensures k in w.hostNames
    {
      assert HostOk(w, k, w.hosts[k]);
    }
    forall k | k in w.probes.Keys
      ensures k in w.hostNames
    {
      assert ProbeOk(w, k, w.probes[k]);
    }
    forall k | k in w.machines.Keys
      ensures k in w.machineNames
    {
      assert MachineOk(w, k, w.machines[k]);
    }
  }

  /** Same objects and passes: only hosts' and probes' own conditions are to check. */
  lemma {:induction false} SameStore(w: World, w': World)
    requires Inv(w) && HostsOk(w') && ProbesOk(w')
    requires w' == w.(probes := w'.probes, confirmed := w'.confirmed, machineNames := w'.machineNames)
    requires w.machineNames <= w'.machineNames
    ensures Inv(w')
  {
    forall k | k in w'.machines
      ensures MachineOk(w', k, w'.machines[k])
    {
      assert MachineOk(w, k, w.machines[k]);
    }
    forall k | k in w'.passes
      ensures k in w'.machineNames && PassOk(w', k, w'.passes[k])
    {
    }
  }

  // ---- writing one host

  /** x may replace host h on behalf of m: only m's own label and claim come in,
      and nobody else's claim goes out. */
  ghost predicate Replaces(w: World, m: string, h: string, x: Host) {
    && h in w.hosts
    && var o := w.hosts[h];
       && (x.claimedBy == o.claimedBy || x.claimedBy == None || x.claimedBy == Some(m))
       && (x.claimRef == o.claimRef || x.claimRef == None || x.claimRef == Some(Me(w, m)))
       && (o.claimRef.Some? && o.claimRef != Some(Me(w, m)) ==> x.claimRef == o.claimRef)
  }

  ghost predicate SameClaim(w: World, h: string, x: Host) {
    h in w.hosts && x.claimedBy == w.hosts[h].claimedBy && x.claimRef == w.hosts[h].claimRef
  }

  lemma {:induction false} PutPass(w: World, m: string, h: string, x: Host, k: string, p: Pass)
    requires Replaces(w, m, h, x) && (k != m || SameClaim(w, h, x))
    requires PassOk(w, k, p)
    ensures PassOk(PutHost(w, h, x), k, p)
  {
    var w' := PutHost(w, h, x);
    match p
    case Walking(_, list, rest) =>
      forall j | j in list
        ensures Copy(w', j, list[j])
      {
      }
    case Recording(j, seen) =>
    case Holding(j, seen) =>
    case Resetting(j, seen) =>
    case Clearing(j, seen) =>
    case _ =>
  }

  lemma {:induction false} PutMachines(w: World, m: string, h: string, x: Host)
    requires MachinesOk(w) && Replaces(w, m, h, x)
    requires SameClaim(w, h, x) || (m in w.machines && w.machines[m].hostRef == Some(h) && !ReleaseWritten(w, m) ==> x.claimRef == Some(Me(w, m)))
    ensures MachinesOk(PutHost(w, h, x))
  {
    var w' := PutHost(w, h, x);
    forall k | k in w'.machines
      ensures MachineOk(w', k, w'.machines[k])
    {
      assert MachineOk(w, k, w.machines[k]);
    }
  }

  ghost predicate QuietHost(x: Host) {
    x.claimedBy == None && x.claimRef == None && x.phase != Available
  }

  lemma {:induction false} PutProbes(w: World, h: string, x: Host)
    requires ProbesOk(w) && h in w.hosts
    requires QuietHost(w.hosts[h]) ==> QuietHost(x)
    ensures ProbesOk(PutHost(w, h, x))
  {
    var w' := PutHost(w, h, x);
    forall k | k in w'.probes
      ensures ProbeOk(w', k, w'.probes[k])
    {
      assert ProbeOk(w, k, w.probes[k]);
    }
  }

  lemma {:induction false} PutHosts(w: World, h: string, x: Host)
    requires HostsOk(w) && HostOk(PutHost(w, h, x), h, x.(version := w.clock))
    ensures HostsOk(PutHost(w, h, x))
  {
    var w' := PutHost(w, h, x);
    forall k | k in w'.hosts
      ensures HostOk(w', k, w'.hosts[k])
    {
      if k != h { assert HostOk(w, k, w.hosts[k]); }
    }
  }

  lemma {:induction false} PutKeeps(w: World, m: string, h: string, x: Host, but: Option<string>)
    requires InvBut(w, but) && Replaces(w, m, h, x)
    requires but == Some(m) || SameClaim(w, h, x)
    requires HostOk(PutHost(w, h, x), h, x.(version := w.clock))
    requires SameClaim(w, h, x) || (m in w.machines && w.machines[m].hostRef == Some(h) && !ReleaseWritten(w, m) ==> x.claimRef == Some(Me(w, m)))
    requires QuietHost(w.hosts[h]) ==> QuietHost(x)
    requires x.claimedBy == Some(m) && !SameClaim(w, h, x) ==> NoLabelBut(w, m, h)
    requires x.claimRef == Some(Me(w, m)) && x.claimRef != w.hosts[h].claimRef ==> NoClaimBy(w, m)
    ensures InvBut(PutHost(w, h, x), but)
  {
    var w' := PutHost(w, h, x);
    PutHosts(w, h, x);
    PutMachines(w, m, h, x);
    PutProbes(w, h, x);
    forall k | k in w'.passes && but != Some(k)
      ensures k in w'.machineNames && PassOk(w', k, w'.passes[k])
    {
      PutPass(w, m, h, x, k, w.passes[k]);
    }
  }

  /** A write that leaves label and claim alone, whoever sends it. */
  lemma {:induction false} PutSameKeeps(w: World, h: string, x: Host)
    requires Inv(w) && SameClaim(w, h, x)
    requires x.phase == Available ==> x.claimRef == None && h in w.confirmed
    requires QuietHost(w.hosts[h]) ==> x.phase != Available
    ensures Inv(PutHost(w, h, x))
  {
    assert HostOk(w, h, w.hosts[h]);
    PutKeeps(w, "", h, x, None);
  }

  // ---- a HostMachine reconcile

  lemma {:induction false} BeginKeeps(w: World, m: string)
    requires Inv(w) && CanReconcile(w, m, Begin)
    ensures Inv(DoBegin(w, m))
  {
    assert MachineOk(w, m, w.machines[m]);
    SetPassKeeps(w, m, DoBegin(w, m).passes[m]);
  }

  lemma {:induction false} LookPassOk(w: World, m: string, order: seq<string>)
    requires Inv(w) && CanReconcile(w, m, Look(order))
    ensures PassOk(w, m, DoLook(w, m, order).passes[m])
  {
    var read := w.passes[m].read;
    assert PassOk(w, m, w.passes[m]);
    assert m in w.machines ==> MachineOk(w, m, w.machines[m]);
    if read.hostRef.None? {
      var c, l := FirstClaimed(order, w.hosts, Me(w, m)), FirstLabelled(order, w.hosts, m);
      forall h | h in w.hosts
        ensures Copy(w, h, w.hosts[h]) && h in order
      {
        assert HostOk(w, h, w.hosts[h]);
      }
      if c.None? && l.Some? {
        assert NoLabelBut(w, m, l.value);
      }
    }
  }

  lemma {:induction false} LookKeeps(w: World, m: string, order: seq<string>)
    requires Inv(w) && CanReconcile(w, m, Look(order))
    ensures Inv(DoLook(w, m, order))
  {
    LookPassOk(w, m, order);
    SetPassKeeps(w, m, DoLook(w, m, order).passes[m]);
  }

  /** Taking the label: the version check makes the listed host the stored one. */
  lemma {:induction false} WalkTakes(w: World, m: string)
    requires Inv(w) && CanReconcile(w, m, Walk) && w.passes[m].rest != []
    requires Eligible(w.passes[m].list[w.passes[m].rest[0]], w.passes[m].selector)
    requires Fresh(w, w.passes[m].rest[0], w.passes[m].list[w.passes[m].rest[0]])
    ensures Inv(DoWalk(w, m))
  {
    var Walking(selector, list, rest) := w.passes[m];
    var h := rest[0];
    var x := list[h].(claimedBy := Some(m));
    assert PassOk(w, m, w.passes[m]);
    assert Copy(w, h, list[h]);
    assert HostOk(w, h, w.hosts[h]);
    assert m in w.machines ==> MachineOk(w, m, w.machines[m]);
    PutKeeps(w, m, h, x, Some(m));
    var w' := PutHost(w, h, x);
    assert PassOk(w', m, Recording(h, w'.hosts[h]));
    SetPassKeeps(w', m, Recording(h, w'.hosts[h]));
  }

  lemma {:induction false} WalkKeeps(w: World, m: string)
    requires Inv(w) && CanReconcile(w, m, Walk)
    ensures Inv(DoWalk(w, m))
  {
    var Walking(selector, list, rest) := w.passes[m];
    assert PassOk(w, m, w.passes[m]);
    if rest == [] || (Eligible(list[rest[0]], selector) && rest[0] !in w.hosts) {
      SetPassKeeps(w, m, Finishing(None));
    } else if Eligible(list[rest[0]], selector) && Fresh(w, rest[0], list[rest[0]]) {
      WalkTakes(w, m);
    } else {
      assert forall h :: h in rest[1..] ==> h in rest;
      SetPassKeeps(w, m, Walking(selector, list, rest[1..]));
    }
  }

  /** Recording the claim over a label: whatever claim stood there is nobody's. */
  lemma {:induction false} RecordKeeps(w: World, m: string)
    requires Inv(w) && CanReconcile(w, m, Record)
    ensures Inv(DoRecord(w, m))
  {
    var Recording(h, seen) := w.passes[m];
    assert PassOk(w, m, w.passes[m]);
    assert m in w.machines ==> MachineOk(w, m, w.machines[m]);
    if Fresh(w, h, seen) {
      var x := seen.(claimRef := Some(Me(w, m)), phase := Claimed);
      assert HostOk(w, h, w.hosts[h]);
      PutKeeps(w, m, h, x, Some(m));
      var w' := PutHost(w, h, x);
      assert PassOk(w', m, Holding(h, w'.hosts[h]));
      SetPassKeeps(w', m, Holding(h, w'.hosts[h]));
    } else {
      SetPassKeeps(w, m, Finishing(None));
    }
  }

  lemma {:induction false} MarkProvisionedKeeps(w: World, m: string)
    requires Inv(w) && CanReconcile(w, m, MarkProvisioned)
    ensures Inv(DoMarkProvisioned(w, m))
  {
    var Holding(h, seen) := w.passes[m];
    assert PassOk(w, m, w.passes[m]);
    if seen.phase != Provisioned && Fresh(w, h, seen) {
      var x := seen.(phase := Provisioned);
      PutSameKeeps(w, h, x);
      SetPassKeeps(PutHost(w, h, x), m, Finishing(Some(h)));
    } else {
      SetPassKeeps(w, m, Finishing(Some(h)));
    }
  }

  lemma {:induction false} GiveUpKeeps(w: World, m: string)
    requires Inv(w) && CanReconcile(w, m, GiveUp)
    ensures Inv(SetPass(w, m, Finishing(LocalRef(w.passes[m]))))
  {
    assert PassOk(w, m, w.passes[m]);
    assert m in w.machines ==> MachineOk(w, m, w.machines[m]);
    SetPassKeeps(w, m, Finishing(LocalRef(w.passes[m])));
  }

  lemma {:induction false} FetchKeeps(w: World, m: string)
    requires Inv(w) && CanReconcile(w, m, Fetch)
    ensures Inv(DoFetch(w, m))
  {
    assert PassOk(w, m, w.passes[m]);
    var ref := w.passes[m].ref;
    if ref.Some? && ref.value in w.hosts { assert HostOk(w, ref.value, w.hosts[ref.value]); }
    SetPassKeeps(w, m, DoFetch(w, m).passes[m]);
  }

  lemma {:induction false} UnlabelKeeps(w: World, m: string)
    requires Inv(w) && CanReconcile(w, m, Unlabel)
    ensures Inv(DoUnlabel(w, m))
  {
    var Resetting(h, seen) := w.passes[m];
    assert PassOk(w, m, w.passes[m]);
    assert MachineOk(w, m, w.machines[m]);
    if Fresh(w, h, seen) {
      var x := seen.(claimedBy := None);
      assert HostOk(w, h, w.hosts[h]);
      PutKeeps(w, m, h, x, Some(m));
      var w' := PutHost(w, h, x);
      SetPassKeeps(w', m, Clearing(h, w'.hosts[h]));
    } else {
      SetPassKeeps(w, m, DoUnlabel(w, m).passes[m]);
    }
  }

  lemma {:induction false} Unconfirm(w: World, h: string)
    requires Inv(w) && h in w.hosts && w.hosts[h].claimRef.Some?
    ensures Inv(w.(confirmed := w.confirmed - {h}))
  {
    var w' := w.(confirmed := w.confirmed - {h});
    forall k | k in w'.hosts
      ensures HostOk(w', k, w'.hosts[k])
    {
      assert HostOk(w, k, w.hosts[k]);
    }
    forall k | k in w'.probes
      ensures ProbeOk(w', k, w'.probes[k])
    {
      assert ProbeOk(w, k, w.probes[k]);
    }
    SameStore(w, w');
  }

  /** From here on m's own reference no longer binds the host. */
  lemma {:induction false} SetReleased(w: World, m: string, h: string)
    requires Inv(w)
    ensures InvBut(SetPass(w, m, Released(h)), Some(m))
  {
    var w' := SetPass(w, m, Released(h));
    OnlyPassesDiffer(w, w');
    forall k | k in w'.machines
      ensures MachineOk(w', k, w'.machines[k])
    {
      assert MachineOk(w, k, w.machines[k]);
    }
    forall k | k in w'.passes && k != m
      ensures k in w'.machineNames && PassOk(w', k, w'.passes[k])
    {
    }
  }

  lemma {:induction false} ClearCommits(w: World, m: string, h: string, seen: Host)
    requires Inv(w) && m in w.passes && w.passes[m] == Clearing(h, seen) && Fresh(w, h, seen)
    ensures Inv(DoClear(w, m))
  {
    assert PassOk(w, m, w.passes[m]);
    assert MachineOk(w, m, w.machines[m]);
    Unconfirm(w, h);
    var w0 := w.(confirmed := w.confirmed - {h});
    SetReleased(w0, m, h);
    ClearWrite(SetPass(w0, m, Released(h)), m, h, seen);
    ClearShape(w, m, h, seen);
  }

  lemma {:induction false} ClearShape(w: World, m: string, h: string, seen: Host)
    requires m in w.passes && w.passes[m] == Clearing(h, seen) && Fresh(w, h, seen)
    ensures
      var w1 := SetPass(w.(confirmed := w.confirmed - {h}), m, Released(h));
      DoClear(w, m) == SetPass(PutHost(w1, h, seen.(claimRef := None, phase := Pending)), m, Released(h))
  {
  }

  lemma {:induction false} ClearWrite(w: World, m: string, h: string, seen: Host)
    requires InvBut(w, Some(m)) && m in w.passes && w.passes[m] == Released(h) && DeletingWith(w, m, Some(h))
    requires h in w.hosts && w.hosts[h] == seen && seen.claimedBy == None && seen.claimRef == Some(Me(w, m))
    ensures Inv(SetPass(PutHost(w, h, seen.(claimRef := None, phase := Pending)), m, Released(h)))
  {
    var x := seen.(claimRef := None, phase := Pending);
    assert HostOk(w, h, w.hosts[h]);
    assert MachineOk(w, m, w.machines[m]);
    PutKeeps(w, m, h, x, Some(m));
    SetPassKeeps(PutHost(w, h, x), m, Released(h));
  }

  lemma {:induction false} ClearKeeps(w: World, m: string)
    requires Inv(w) && CanReconcile(w, m, Clear)
    ensures Inv(DoClear(w, m))
  {
    var Clearing(h, seen) := w.passes[m];
    assert PassOk(w, m, w.passes[m]);
    assert MachineOk(w, m, w.machines[m]);
    if Fresh(w, h, seen) {
      ClearCommits(w, m, h, seen);
    } else {
      SetPassKeeps(w, m, DoClear(w, m).passes[m]);
    }
  }

  // ---- writing one machine

  lemma {:induction false} PatchKeeps(w: World, m: string)
    requires Inv(w) && CanReconcile(w, m, Patch)
    ensures Inv(DoPatch(w, m))
  {
    assert PassOk(w, m, w.passes[m]);
    EndPassKeeps(w, m);
    if m in w.machines {
      assert MachineOk(w, m, w.machines[m]);
      PutMachineKeeps(EndPass(w, m), m, w.machines[m].(hostRef := w.passes[m].ref, finalizer := true));
    }
  }

  /** A machine with no reconcile in flight may be replaced by any sound one. */
  lemma {:induction false} PutMachineKeeps(w: World, m: string, x: Machine)
    requires Inv(w) && m !in w.passes
    requires MachineOk(w, m, x)
    requires m in w.machines && w.machines[m].deleting ==> x.deleting && (x.hostRef == w.machines[m].hostRef || RefGone(w, m))
    ensures Inv(w.(machines := w.machines[m := x]))
  {
    var w' := w.(machines := w.machines[m := x]);
    forall k | k in w'.machines
      ensures MachineOk(w', k, w'.machines[k])
    {
      if k != m { assert MachineOk(w, k, w.machines[k]); }
    }
    forall k | k in w'.hosts
      ensures HostOk(w', k, w'.hosts[k])
    {
      assert HostOk(w, k, w.hosts[k]);
    }
    forall k | k in w'.passes
      ensures k in w'.machineNames && PassOk(w', k, w'.passes[k])
    {
      OtherMachine(w, w', m, k, w.passes[k]);
    }
    forall k | k in w'.probes
      ensures ProbeOk(w', k, w'.probes[k])
    {
      assert ProbeOk(w, k, w.probes[k]);
    }
  }

  lemma {:induction false} OtherMachine(w: World, w': World, m: string, k: string, p: Pass)
    requires w' == w.(machines := w'.machines, machineNames := w'.machineNames)
    requires k != m && (k in w'.machines <==> k in w.machines) && (k in w.machines ==> w'.machines[k] == w.machines[k])
    requires PassOk(w, k, p)
    ensures PassOk(w', k, p)
  {
  }

  lemma {:induction false} AddMachineKeeps(w: World, m: string, selector: Selector)
    requires Inv(w) && CanOperate(w, AddMachine(m, selector))
    ensures Inv(DoOperate(w, AddMachine(m, selector)))
  {
    var w0 := w.(machineNames := w.machineNames + {m});
    forall k | k in w0.hosts
      ensures HostOk(w0, k, w0.hosts[k])
    {
      assert HostOk(w, k, w.hosts[k]);
    }
    forall k | k in w0.probes
      ensures ProbeOk(w0, k, w0.probes[k])
    {
      assert ProbeOk(w, k, w.probes[k]);
    }
    SameStore(w, w0);
    NamesKnown(w);
    PutMachineKeeps(w0, m, Machine(selector, false, false, None));
  }

  /** Marking a machine for deletion, whatever its reconcile is doing. */
  lemma {:induction false} MarkDeleted(w: World, m: string)
    requires Inv(w) && m in w.machines && w.machines[m].finalizer
    ensures Inv(w.(machines := w.machines[m := w.machines[m].(deleting := true)]))
  {
    var w' := w.(machines := w.machines[m := w.machines[m].(deleting := true)]);
    forall k | k in w'.machines
      ensures MachineOk(w', k, w'.machines[k])
    {
      assert MachineOk(w, k, w.machines[k]);
    }
    forall k | k in w'.hosts
      ensures HostOk(w', k, w'.hosts[k])
    {
      assert HostOk(w, k, w.hosts[k]);
    }
    forall k | k in w'.passes
      ensures k in w'.machineNames && PassOk(w', k, w'.passes[k])
    {
    }
    forall k | k in w'.probes
      ensures ProbeOk(w', k, w'.probes[k])
    {
      assert ProbeOk(w, k, w.probes[k]);
    }
  }

  /** A machine that holds nothing and is not being deleted may vanish at any time. */
  lemma {:induction false} RemoveMachine(w: World, m: string)
    requires Inv(w) && m in w.machines && !(m in w.passes && (w.passes[m].Leaving? || w.passes[m].Released?))
    requires !w.machines[m].deleting || m !in w.passes
    requires m in w.passes ==> w.machines[m].hostRef == None
    requires w.machines[m].deleting ==> RefGone(w, m)
    ensures Inv(w.(machines := w.machines - {m}))
  {
    var w' := w.(machines := w.machines - {m});
    forall k | k in w'.machines
      ensures MachineOk(w', k, w'.machines[k])
    {
      assert MachineOk(w, k, w.machines[k]);
    }
    forall k | k in w'.hosts
      ensures HostOk(w', k, w'.hosts[k])
    {
      assert HostOk(w, k, w.hosts[k]);
    }
    forall k | k in w'.passes
      ensures k in w'.machineNames && PassOk(w', k, w'.passes[k])
    {
      assert PassOk(w, k, w.passes[k]);
      if k != m { OtherMachine(w, w', m, k, w.passes[k]); }
    }
    forall k | k in w'.probes
      ensures ProbeOk(w', k, w'.probes[k])
    {
      assert ProbeOk(w, k, w.probes[k]);
    }
  }

  lemma {:induction false} DeleteMachineKeeps(w: World, m: string)
    requires Inv(w) && CanOperate(w, DeleteMachine(m))
    ensures Inv(DoOperate(w, DeleteMachine(m)))
  {
    assert MachineOk(w, m, w.machines[m]);
    if w.machines[m].finalizer {
      MarkDeleted(w, m);
    } else {
      assert m in w.passes ==> PassOk(w, m, w.passes[m]);
      RemoveMachine(w, m);
    }
  }

  lemma {:induction false} DropKeeps(w: World, m: string)
    requires Inv(w) && CanReconcile(w, m, Drop)
    ensures Inv(DoDrop(w, m))
  {
    var w' := DoDrop(w, m);
    assert PassOk(w, m, w.passes[m]);
    forall k | k in w'.machines
      ensures MachineOk(w', k, w'.machines[k])
    {
      assert MachineOk(w, k, w.machines[k]);
    }
    forall k | k in w'.hosts
      ensures HostOk(w', k, w'.hosts[k])
    {
    }
    forall k | k in w'.passes
      ensures k in w'.machineNames && PassOk(w', k, w'.passes[k])
    {
      assert PassOk(w, k, w.passes[k]);
      OtherMachine(w.(passes := w'.passes), w', m, k, w.passes[k]);
    }
    forall k | k in w'.probes
      ensures ProbeOk(w', k, w'.probes[k])
    {
      assert ProbeOk(w, k, w.probes[k]);
    }
  }

  // ---- a Host reconcile

  lemma {:induction false} SetProbeKeeps(w: World, h: string, p: Probe)
    requires Inv(w) && ProbeOk(w, h, p)
    ensures Inv(SetProbe(w, h, p))
  {
    ProbesReplaced(w, SetProbe(w, h, p));
  }

  lemma {:induction false} EndProbeKeeps(w: World, h: string)
    requires Inv(w)
    ensures Inv(EndProbe(w, h))
  {
    ProbesReplaced(w, EndProbe(w, h));
  }

  lemma {:induction false} ProbesReplaced(w: World, w': World)
    requires Inv(w) && w' == w.(probes := w'.probes)
    requires forall h :: h in w'.probes ==> ProbeOk(w, h, w'.probes[h])
    ensures Inv(w')
  {
    forall k | k in w'.hosts
      ensures HostOk(w', k, w'.hosts[k])
    {
      assert HostOk(w, k, w.hosts[k]);
    }
    forall k | k in w'.probes
      ensures ProbeOk(w', k, w'.probes[k])
    {
      assert ProbeOk(w, k, w'.probes[k]);
    }
    SameStore(w, w');
  }

  lemma {:induction false} HostBeginKeeps(w: World, h: string)
    requires Inv(w) && CanWatch(w, h, HostBegin)
    ensures Inv(DoHostBegin(w, h))
  {
    var seen := w.hosts[h];
    assert HostOk(w, h, seen);
    if seen.deleting || seen.claimRef.None? {
      SetProbeKeeps(w, h, DoHostBegin(w, h).probes[h]);
    }
  }

  lemma {:induction false} HostCheckKeeps(w: World, h: string)
    requires Inv(w) && CanWatch(w, h, HostCheck)
    ensures Inv(DoHostCheck(w, h))
  {
    assert ProbeOk(w, h, w.probes[h]);
    EndProbeKeeps(w, h);
    SetProbeKeeps(w, h, Removing);
  }

  lemma {:induction false} Confirm(w: World, h: string)
    requires Inv(w)
    ensures Inv(w.(confirmed := w.confirmed + {h}))
  {
    var w' := w.(confirmed := w.confirmed + {h});
    forall k | k in w'.hosts
      ensures HostOk(w', k, w'.hosts[k])
    {
      assert HostOk(w, k, w.hosts[k]);
    }
    forall k | k in w'.probes
      ensures ProbeOk(w', k, w'.probes[k])
    {
      assert ProbeOk(w, k, w.probes[k]);
    }
    SameStore(w, w');
  }

  lemma {:induction false} HostProbeKeeps(w: World, h: string, answers: bool)
    requires Inv(w) && CanWatch(w, h, HostProbe(answers))
    ensures Inv(DoHostProbe(w, h, answers))
  {
    assert ProbeOk(w, h, w.probes[h]);
    if answers {
      Confirm(w, h);
      SetProbeKeeps(w.(confirmed := w.confirmed + {h}), h, DoHostProbe(w, h, answers).probes[h]);
    } else {
      SetProbeKeeps(w, h, DoHostProbe(w, h, answers).probes[h]);
    }
  }

  /** A slow probe's answer: it says Available only where nothing happened meanwhile. */
  lemma {:induction false} HostWriteKeeps(w: World, h: string)
    requires Inv(w) && CanWatch(w, h, HostWrite)
    ensures Inv(DoHostWrite(w, h))
  {
    var Writing(seen, phase) := w.probes[h];
    assert ProbeOk(w, h, w.probes[h]);
    EndProbeKeeps(w, h);
    if h in w.hosts {
      assert HostOk(w, h, w.hosts[h]);
      var w' := EndProbe(w, h);
      var x := if phase == seen.phase then w.hosts[h] else w.hosts[h].(phase := phase);
      PutProbedKeeps(w', h, x);
      assert DoHostWrite(w, h) == PutHost(w', h, x);
    }
  }

  lemma {:induction false} PutProbedKeeps(w: World, h: string, x: Host)
    requires Inv(w) && SameClaim(w, h, x) && h !in w.probes
    requires x.phase == Available ==> x.claimRef == None && h in w.confirmed
    ensures Inv(PutHost(w, h, x))
  {
    var w' := PutHost(w, h, x);
    assert HostOk(w, h, w.hosts[h]);
    PutHosts(w, h, x);
    PutMachines(w, "", h, x);
    forall k | k in w'.probes
      ensures ProbeOk(w', k, w'.probes[k])
    {
      assert ProbeOk(w, k, w.probes[k]);
    }
    forall k | k in w'.passes
      ensures k in w'.machineNames && PassOk(w', k, w'.passes[k])
    {
      PutPass(w, "", h, x, k, w.passes[k]);
    }
  }

  lemma {:induction false} HostRemoveKeeps(w: World, h: string)
    requires Inv(w) && CanWatch(w, h, HostRemove)
    ensures Inv(DoHostRemove(w, h))
  {
    EndProbeKeeps(w, h);
    var w0 := EndProbe(w, h);
    var w' := DoHostRemove(w, h);
    forall k | k in w'.machines
      ensures MachineOk(w', k, w'.machines[k])
    {
      assert MachineOk(w0, k, w0.machines[k]);
    }
    forall k | k in w'.hosts
      ensures HostOk(w', k, w'.hosts[k])
    {
      assert HostOk(w0, k, w0.hosts[k]);
    }
    forall k | k in w'.passes
      ensures k in w'.machineNames && PassOk(w', k, w'.passes[k])
    {
    }
    forall k | k in w'.probes
      ensures ProbeOk(w', k, w'.probes[k])
    {
      assert ProbeOk(w0, k, w0.probes[k]);
    }
  }

  // ---- operators

  lemma {:induction false} AddedPass(w: World, w': World, h: string, x: Host, k: string, p: Pass)
    requires h !in w.hostNames && h !in w.hosts && x.claimRef == None && x.claimedBy == None
    requires w' == PutHost(w, h, x).(hostNames := w.hostNames + {h})
    requires PassOk(w, k, p) && (k in w.machines ==> MachineOk(w, k, w.machines[k]))
    ensures PassOk(w', k, p)
  {
    match p
    case Walking(_, list, rest) =>
      forall j | j in list
        ensures Copy(w', j, list[j])
      {
      }
    case _ =>
  }

  lemma {:induction false} AddHostKeeps(w: World, h: string, labels: Labels, unhealthy: bool)
    requires Inv(w) && CanOperate(w, AddHost(h, labels, unhealthy))
    ensures Inv(DoOperate(w, AddHost(h, labels, unhealthy)))
  {
    var w' := DoOperate(w, AddHost(h, labels, unhealthy));
    NamesKnown(w);
    forall k | k in w'.machines
      ensures MachineOk(w', k, w'.machines[k])
    {
      assert MachineOk(w, k, w.machines[k]);
    }
    forall k | k in w'.hosts
      ensures HostOk(w', k, w'.hosts[k])
    {
      if k != h { assert HostOk(w, k, w.hosts[k]); }
    }
    forall k | k in w'.passes
      ensures k in w'.machineNames && PassOk(w', k, w'.passes[k])
    {
      AddedPass(w, w', h, Host(0, labels, None, unhealthy, false, None, Unset), k, w.passes[k]);
    }
    forall k | k in w'.probes
      ensures ProbeOk(w', k, w'.probes[k])
    {
      assert ProbeOk(w, k, w.probes[k]);
    }
  }

  lemma {:induction false} MoveKeeps(w: World)
    requires Inv(w) && CanOperate(w, Move)
    ensures Inv(DoMove(w))
  {
    var w' := DoMove(w);
    forall h | h in w'.hosts
      ensures HostOk(w', h, w'.hosts[h])
    {
      assert HostOk(w, h, w.hosts[h]);
    }
    forall m | m in w'.machines
      ensures MachineOk(w', m, w'.machines[m])
    {
      assert MachineOk(w, m, w.machines[m]);
    }
  }

  // ---- every step, every run

  lemma {:induction false} ReconcileKeeps(w: World, m: string, c: Call)
    requires Inv(w) && CanReconcile(w, m, c) && !c.LosePatch?
    ensures Inv(DoReconcile(w, m, c))
  {
    match c
    case Begin => BeginKeeps(w, m);
    case Look(order) => LookKeeps(w, m, order);
    case Walk => WalkKeeps(w, m);
    case Record => RecordKeeps(w, m);
    case MarkProvisioned => MarkProvisionedKeeps(w, m);
    case GiveUp => GiveUpKeeps(w, m);
    case Patch => PatchKeeps(w, m);
    case Crash => EndPassKeeps(w, m);
    case Fetch => FetchKeeps(w, m);
    case Unlabel => UnlabelKeeps(w, m);
    case Clear => ClearKeeps(w, m);
    case Drop => DropKeeps(w, m);
  }

  lemma {:induction false} OperateKeeps(w: World, op: Operation)
    requires Inv(w) && CanOperate(w, op)
    ensures Inv(DoOperate(w, op))
  {
    match op
    case AddHost(h, labels, unhealthy) => AddHostKeeps(w, h, labels, unhealthy);
    case EditHost(h, labels, unhealthy) =>
      assert HostOk(w, h, w.hosts[h]);
      PutSameKeeps(w, h, w.hosts[h].(labels := labels, unhealthy := unhealthy));
    case DeleteHost(h) =>
      assert HostOk(w, h, w.hosts[h]);
      PutSameKeeps(w, h, w.hosts[h].(deleting := true));
    case AddMachine(m, selector) => AddMachineKeeps(w, m, selector);
    case DeleteMachine(m) => DeleteMachineKeeps(w, m);
    case Move => MoveKeeps(w);
  }

  lemma {:induction false} WatchKeeps(w: World, h: string, c: HostCall)
    requires Inv(w) && CanWatch(w, h, c)
    ensures Inv(DoWatch(w, h, c))
  {
    match c
    case HostBegin => HostBeginKeeps(w, h);
    case HostCheck => HostCheckKeeps(w, h);
    case HostProbe(answers) => HostProbeKeeps(w, h, answers);
    case HostWrite => HostWriteKeeps(w, h);
    case HostRemove => HostRemoveKeeps(w, h);
    case HostCrash => EndProbeKeeps(w, h);
  }

  lemma {:induction false} StepKeeps(w: World, a: Action)
    requires Inv(w) && !LosesPatch(a)
    ensures Inv(Step(w, a))
  {
    if Enabled(w, a) {
      match a
      case Operate(op) => OperateKeeps(w, op);
      case Reconcile(m, c) => ReconcileKeeps(w, m, c);
      case Watch(h, c) => WatchKeeps(w, h, c);
    }
  }

  lemma {:induction false} RunKeeps(w: World, actions: seq<Action>)
    requires Inv(w) && NoLostPatch(actions)
    ensures Inv(Run(w, actions))
    decreases |actions|
  {
    if actions != [] {
      StepKeeps(w, actions[0]);
      RunKeeps(Step(w, actions[0]), actions[1..]);
    }
  }
}
