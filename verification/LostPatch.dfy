/** The one patch the claim protocol cannot afford to lose: the one between clearing
    a host's status and dropping the machine that held it.  reconcileDelete does not
    compare the claim with its own machine, so a retry can release a host that
    somebody else holds by then. */
module LostPatch {
  import opened Objects
  import opened Claims
  import opened ClaimSafety
  import opened ClaimTheorems
  import Inventory

  /** One undisturbed delete pass of m, up to the write that frees the host. */
  ghost function DeletePass(w: World, m: string): World {
    Step(Step(Step(Step(w, Reconcile(m, Begin)), Reconcile(m, Fetch)), Reconcile(m, Unlabel)), Reconcile(m, Clear))
  }

  ghost predicate Deletable(w: World, m: string, h: string) {
    && m in w.machines && m !in w.passes && h in w.hosts
    && w.machines[m].deleting && w.machines[m].hostRef == Some(h)
  }

  function Freed(x: Host, version: nat): Host {
    x.(version := version, claimedBy := None, claimRef := None, phase := Pending)
  }

  lemma {:induction false} FetchEffect(w: World, m: string, h: string)
    requires Deletable(w, m, h)
    ensures Step(Step(w, Reconcile(m, Begin)), Reconcile(m, Fetch)) == SetPass(w, m, Resetting(h, w.hosts[h]))
  {
    assert Step(w, Reconcile(m, Begin)) == SetPass(w, m, Deleting(Some(h)));
  }

  lemma {:induction false} UnlabelEffect(w: World, m: string, h: string)
    requires h in w.hosts
    ensures
      var x := w.hosts[h].(version := w.clock, claimedBy := None);
      Step(SetPass(w, m, Resetting(h, w.hosts[h])), Reconcile(m, Unlabel)) == SetPass(PutHost(w, h, x), m, Clearing(h, x))
  {
  }

  lemma {:induction false} DeletePassEffect(w: World, m: string, h: string)
    requires Deletable(w, m, h)
    ensures DeletePass(w, m) ==
            w.(hosts := w.hosts[h := Freed(w.hosts[h], w.clock + 1)], clock := w.clock + 2,
               passes := w.passes[m := Released(h)], confirmed := w.confirmed - {h})
  {
    FetchEffect(w, m, h);
    UnlabelEffect(w, m, h);
    var x := w.hosts[h].(version := w.clock, claimedBy := None);
  }

  /** A delete pass leaves every other machine's claim alone exactly when the host it
      is about to release is unclaimed or claimed by that machine. */
  lemma {:induction false} DeletePassIsHarmlessIff(w: World, m: string, h: string)
    requires Deletable(w, m, h)
    ensures
      (forall g :: g in w.hosts && w.hosts[g].claimRef.Some? && w.hosts[g].claimRef != Some(Me(w, m)) ==>
         g in DeletePass(w, m).hosts && DeletePass(w, m).hosts[g].claimRef == w.hosts[g].claimRef)
      <==> (w.hosts[h].claimRef == None || w.hosts[h].claimRef == Some(Me(w, m)))
  {
    DeletePassEffect(w, m, h);
    var w' := DeletePass(w, m);
    assert w'.hosts[h].claimRef == None;
  }

  /** While no patch is lost that condition holds wherever a delete pass can begin. */
  lemma {:induction false} DeletePassIsHarmless(actions: seq<Action>, m: string, h: string)
    requires NoLostPatch(actions) && Deletable(Run(Empty, actions), m, h)
    ensures Run(Empty, actions).hosts[h].claimRef == Some(Me(Run(Empty, actions), m))
  {
    RunKeeps(Empty, actions);
    HolderIsClaimant(Run(Empty, actions), m, h);
  }

  // ---- a run that loses the patch

  ghost predicate Leads(w: World, w': World) {
    exists actions :: Run(w, actions) == w'
  }

  lemma {:induction false} LeadsStep(w: World, v: World, a: Action)
    requires Leads(w, v)
    ensures Leads(w, Step(v, a))
  {
    var actions :| Run(w, actions) == v;
    RunConcat(w, actions, [a]);
    RunOne(v, a);
    assert Run(w, actions + [a]) == Step(v, a);
  }

  /** Probing a free, unlabelled host makes it Available. */
  lemma {:induction false} ProbeRound(w: World, v: World, h: string)
    requires Leads(w, v) && h in v.hosts && h !in v.probes
    requires v.hosts[h].claimRef == None && v.hosts[h].claimedBy == None && v.hosts[h].phase != Available
    requires !v.hosts[h].unhealthy && !v.hosts[h].deleting
    ensures Leads(w, PutHost(v, h, v.hosts[h].(phase := Available)).(confirmed := v.confirmed + {h}))
  {
    var x := v.hosts[h];
    LeadsStep(w, v, Watch(h, HostBegin));
    var v1 := SetProbe(v, h, Probing(x));
    assert Step(v, Watch(h, HostBegin)) == v1;
    LeadsStep(w, v1, Watch(h, HostProbe(true)));
    var v2 := SetProbe(v, h, Writing(x, Available)).(confirmed := v.confirmed + {h});
    assert Step(v1, Watch(h, HostProbe(true))) == v2;
    LeadsStep(w, v2, Watch(h, HostWrite));
    assert v2.probes - {h} == v.probes;
    assert Step(v2, Watch(h, HostWrite)) == PutHost(v, h, x.(phase := Available)).(confirmed := v.confirmed + {h});
  }

  function Taken(x: Host, uid: Uid, version: nat): Host {
    x.(version := version, claimedBy := Some(uid.machine), claimRef := Some(uid), phase := Claimed)
  }

  /** A machine alone in a pool of one eligible host takes it and records it. */
  lemma {:induction false} ClaimRound(w: World, v: World, m: string, h: string)
    requires Leads(w, v) && v.hosts.Keys == {h} && Eligible(v.hosts[h], []) && v.hosts[h].claimedBy == None
    requires m in v.machines && m !in v.passes && v.machines[m] == Machine([], false, false, None)
    ensures Leads(w, v.(hosts := map[h := Taken(v.hosts[h], Me(v, m), v.clock + 1)], clock := v.clock + 2,
                        machines := v.machines[m := Machine([], false, true, Some(h))]))
  {
    LeadsStep(w, v, Reconcile(m, Begin));
    var v1 := SetPass(v, m, Begun(v.machines[m]));
    assert Step(v, Reconcile(m, Begin)) == v1;
    LeadsStep(w, v1, Reconcile(m, Look([h])));
    LookAlone(v1, m, h);
    var v2 := SetPass(v, m, Walking([], v.hosts, [h]));
    LeadsStep(w, v2, Reconcile(m, Walk));
    WalkAlone(v, m, h);
    var x3 := v.hosts[h].(version := v.clock, claimedBy := Some(m));
    ClaimRoundEnds(w, v, SetPass(PutHost(v, h, x3), m, Recording(h, x3)), m, h, x3);
  }

  lemma {:induction false} WalkAlone(v: World, m: string, h: string)
    requires h in v.hosts && Eligible(v.hosts[h], [])
    ensures
      var x := v.hosts[h].(version := v.clock, claimedBy := Some(m));
      Step(SetPass(v, m, Walking([], v.hosts, [h])), Reconcile(m, Walk)) == SetPass(PutHost(v, h, x), m, Recording(h, x))
  {
    var w := SetPass(v, m, Walking([], v.hosts, [h]));
    assert CanReconcile(w, m, Walk);
  }

  lemma {:induction false} LookAlone(v: World, m: string, h: string)
    requires m in v.passes && v.passes[m].Begun? && v.passes[m].read == Machine([], false, false, None)
    requires v.hosts.Keys == {h} && v.hosts[h].claimRef == None && v.hosts[h].claimedBy == None
    ensures Step(v, Reconcile(m, Look([h]))) == SetPass(v, m, Walking([], v.hosts, [h]))
  {
    assert h in [h];
  }

  lemma {:induction false} ClaimRoundEnds(w: World, v: World, v3: World, m: string, h: string, x3: Host)
    requires v.hosts.Keys == {h} && m in v.machines && m !in v.passes && v.machines[m] == Machine([], false, false, None)
    requires x3 == v.hosts[h].(version := v.clock, claimedBy := Some(m))
    requires v3 == SetPass(PutHost(v, h, x3), m, Recording(h, x3)) && Leads(w, v3)
    ensures Leads(w, v.(hosts := map[h := Taken(v.hosts[h], Me(v, m), v.clock + 1)], clock := v.clock + 2,
                        machines := v.machines[m := Machine([], false, true, Some(h))]))
  {
    var x4 := Taken(v.hosts[h], Me(v, m), v.clock + 1);
    LeadsStep(w, v3, Reconcile(m, Record));
    var p4 := v.(hosts := map[h := x4], clock := v.clock + 2);
    RecordAlone(v, m, h, x3);
    HoldingEnds(w, p4, m, h, x4);
  }

  lemma {:induction false} RecordAlone(v: World, m: string, h: string, x: Host)
    requires v.hosts.Keys == {h} && x == v.hosts[h].(version := v.clock, claimedBy := Some(m))
    ensures
      var x4 := Taken(v.hosts[h], Me(v, m), v.clock + 1);
      Step(SetPass(PutHost(v, h, x), m, Recording(h, x)), Reconcile(m, Record)) ==
      SetPass(v.(hosts := map[h := x4], clock := v.clock + 2), m, Holding(h, x4))
  {
    var x4 := Taken(v.hosts[h], Me(v, m), v.clock + 1);
    assert PutHost(v, h, x).hosts[h := x4] == map[h := x4];
  }

  lemma {:induction false} HoldingEnds(w: World, v: World, m: string, h: string, x: Host)
    requires m in v.machines && m !in v.passes && v.machines[m] == Machine([], false, false, None)
    requires Leads(w, SetPass(v, m, Holding(h, x)))
    ensures Leads(w, v.(machines := v.machines[m := Machine([], false, true, Some(h))]))
  {
    LeadsStep(w, SetPass(v, m, Holding(h, x)), Reconcile(m, GiveUp));
    assert Step(SetPass(v, m, Holding(h, x)), Reconcile(m, GiveUp)) == SetPass(v, m, Finishing(Some(h)));
    LeadsStep(w, SetPass(v, m, Finishing(Some(h))), Reconcile(m, Patch));
    assert SetPass(v, m, Finishing(Some(h))).passes - {m} == v.passes;
  }

  lemma {:induction false} DeleteRound(w: World, v: World, m: string, h: string)
    requires Leads(w, v) && Deletable(v, m, h)
    ensures Leads(w, DeletePass(v, m))
  {
    LeadsStep(w, v, Reconcile(m, Begin));
    var v1 := Step(v, Reconcile(m, Begin));
    LeadsStep(w, v1, Reconcile(m, Fetch));
    var v2 := Step(v1, Reconcile(m, Fetch));
    LeadsStep(w, v2, Reconcile(m, Unlabel));
    var v3 := Step(v2, Reconcile(m, Unlabel));
    LeadsStep(w, v3, Reconcile(m, Clear));
  }

  /** The pool of the counterexample: one host, three machines. */
  function Pool(clock: nat, x: Host, machines: map<string, Machine>, confirmed: set<string>): World {
    World(0, clock, map["h" := x], {"h"}, machines, {"a", "b", "c"}, map[], map[], confirmed)
  }

  const Idle := Machine([], false, false, None)
  const Bound := Machine([], false, true, Some("h"))
  const Doomed := Machine([], true, true, Some("h"))

  function FreeHost(version: nat, phase: Phase): Host {
    Host(version, map[], None, false, false, None, phase)
  }

  function HeldHost(version: nat, m: string): Host {
    Host(version, map[], Some(m), false, false, Some(Uid(m, 0)), Claimed)
  }

  lemma {:induction false} PoolFilled()
    ensures Leads(Empty, Pool(1, FreeHost(0, Unset), map["a" := Idle, "b" := Idle, "c" := Idle], {}))
  {
    assert Run(Empty, []) == Empty;
    LeadsStep(Empty, Empty, Operate(AddHost("h", map[], false)));
    var v1 := Step(Empty, Operate(AddHost("h", map[], false)));
    LeadsStep(Empty, v1, Operate(AddMachine("a", [])));
    var v2 := Step(v1, Operate(AddMachine("a", [])));
    LeadsStep(Empty, v2, Operate(AddMachine("b", [])));
    var v3 := Step(v2, Operate(AddMachine("b", [])));
    LeadsStep(Empty, v3, Operate(AddMachine("c", [])));
    var v4 := Step(v3, Operate(AddMachine("c", [])));
    assert v4.machines == map["a" := Idle, "b" := Idle, "c" := Idle];
    assert v4.hostNames == {"h"} && v4.machineNames == {"a", "b", "c"};
    assert v4.hosts == map["h" := FreeHost(0, Unset)];
  }

  /** A free host is probed and taken by m. */
  lemma {:induction false} TakeRound(clock: nat, phase: Phase, machines: map<string, Machine>, m: string)
    requires clock >= 1 && phase != Available && m in machines && machines[m] == Idle
    requires Leads(Empty, Pool(clock, FreeHost(clock - 1, phase), machines, {}))
    ensures Leads(Empty, Pool(clock + 3, HeldHost(clock + 2, m), machines[m := Bound], {"h"}))
  {
    var v := Pool(clock, FreeHost(clock - 1, phase), machines, {});
    ProbeRound(Empty, v, "h");
    var v1 := Pool(clock + 1, FreeHost(clock, Available), machines, {"h"});
    assert v1 == PutHost(v, "h", v.hosts["h"].(phase := Available)).(confirmed := v.confirmed + {"h"});
    ClaimRound(Empty, v1, m, "h");
  }

  /** m, being deleted with this host on record, frees it, whoever holds it now. */
  lemma {:induction false} FreeRound(clock: nat, holder: string, machines: map<string, Machine>, m: string)
    requires clock >= 1 && m in machines && machines[m] == Doomed
    requires Leads(Empty, Pool(clock, HeldHost(clock - 1, holder), machines, {"h"}))
    ensures Leads(Empty, SetPass(Pool(clock + 2, FreeHost(clock + 1, Pending), machines, {}), m, Released("h")))
  {
    var v := Pool(clock, HeldHost(clock - 1, holder), machines, {"h"});
    DeleteRound(Empty, v, m, "h");
    DeletePassEffect(v, m, "h");
    assert v.hosts["h" := FreeHost(clock + 1, Pending)] == map["h" := FreeHost(clock + 1, Pending)];
  }

  /** First tenancy: a takes the host and releases it, and its last patch is lost. */
  lemma {:induction false} FirstTenancy()
    ensures Leads(Empty, Pool(6, FreeHost(5, Pending), map["a" := Doomed, "b" := Idle, "c" := Idle], {}))
  {
    PoolFilled();
    var all := map["a" := Idle, "b" := Idle, "c" := Idle];
    TakeRound(1, Unset, all, "a");
    var v2 := Pool(4, HeldHost(3, "a"), all["a" := Bound], {"h"});
    LeadsStep(Empty, v2, Operate(DeleteMachine("a")));
    assert v2.machines["a" := Doomed] == all["a" := Doomed];
    FreeRound(4, "a", all["a" := Doomed], "a");
    var v4 := Pool(6, FreeHost(5, Pending), all["a" := Doomed], {});
    var v5 := SetPass(v4, "a", Released("h"));
    LeadsStep(Empty, v5, Reconcile("a", LosePatch));
    assert v5.passes - {"a"} == map[];
    assert all["a" := Doomed] == map["a" := Doomed, "b" := Idle, "c" := Idle];
  }

  /** Second tenancy: b holds the host when a's retry releases it once more. */
  lemma {:induction false} SecondTenancy()
    ensures Leads(Empty, Pool(11, FreeHost(10, Pending), map["b" := Bound, "c" := Idle], {}))
  {
    FirstTenancy();
    var all := map["a" := Doomed, "b" := Idle, "c" := Idle];
    TakeRound(6, Pending, all, "b");
    FreeRound(9, "b", all["b" := Bound], "a");
    var v3 := SetPass(Pool(11, FreeHost(10, Pending), all["b" := Bound], {}), "a", Released("h"));
    LeadsStep(Empty, v3, Reconcile("a", Drop));
    assert v3.passes - {"a"} == map[];
    assert v3.machines - {"a"} == map["b" := Bound, "c" := Idle];
  }

  /** With the patch lost, exclusiveness fails: b and c, both live, hold one host. */
  lemma {:induction false} LostPatchBreaksExclusiveness()
    ensures exists actions ::
      "h" in Run(Empty, actions).hosts
      && LiveHolder(Run(Empty, actions), "b", "h") && LiveHolder(Run(Empty, actions), "c", "h")
  {
    SecondTenancy();
    var all := map["b" := Bound, "c" := Idle];
    TakeRound(11, Pending, all, "c");
    var v := Pool(14, HeldHost(13, "c"), all["c" := Bound], {"h"});
    var actions :| Run(Empty, actions) == v;
    assert LiveHolder(v, "b", "h") && LiveHolder(v, "c", "h");
  }
}
