/** What the registry and the genesis node promise over every sequence of commands. */
module GenesisTheorems {
  import opened Objects
  import opened Registry
  import opened Genesis

  // ---- a released cluster stays released

  predicate LetGo(s: State, id: Id) {
    id in s.records && (s.records[id] == Released || s.records[id] == SelfManaged)
  }

  predicate Touches(w: Write, id: Id) {
    (w.Remember? || w.Erase?) && w.id == id
  }

  lemma {:induction false} UntouchedRecord(s: State, writes: seq<Write>, id: Id)
    requires forall i :: 0 <= i < |writes| ==> !Touches(writes[i], id)
    ensures id in DoAll(s, writes).records <==> id in s.records
    ensures id in s.records ==> DoAll(s, writes).records[id] == s.records[id]
    decreases |writes|
  {
    if writes != [] { UntouchedRecord(s, writes[..|writes| - 1], id); }
  }

  lemma {:induction false} AdditionsSpareKnown(s: State, order: seq<Id>, id: Id)
    requires id in s.records
    ensures forall i :: 0 <= i < |Additions(s, order)| ==> !Touches(Additions(s, order)[i], id)
    decreases |order|
  {
    if order != [] { AdditionsSpareKnown(s, order[..|order| - 1], id); }
  }

  lemma {:induction false} CommandsSpareLetGo(s: State, c: Command, id: Id)
    requires LetGo(s, id) && c != Command.Forget(id)
    ensures forall i :: 0 <= i < |Writes(s, c)| ==> !Touches(Writes(s, c)[i], id)
  {
    if c.Discover? { AdditionsSpareKnown(s, c.order, id); }
  }

  lemma {:induction false} TurnKeepsLetGo(s: State, t: Turn, id: Id)
    requires LetGo(s, id) && t.command != Command.Forget(id)
    ensures LetGo(Take(s, t), id) && Take(s, t).records[id] == s.records[id]
  {
    CommandsSpareLetGo(s, t.command, id);
    var writes := Writes(s, t.command);
    forall i | 0 <= i < |Prefix(writes, t.cut)| ensures !Touches(Prefix(writes, t.cut)[i], id) {
      assert Prefix(writes, t.cut)[i] == writes[i];
    }
    UntouchedRecord(s, Prefix(writes, t.cut), id);
  }

  /** Over every sequence of commands, each cut anywhere, a record that says released
      or self-managed says so until it is forgotten. */
  lemma {:induction false} LetGoStaysLetGo(s: State, turns: seq<Turn>, id: Id)
    requires LetGo(s, id) && forall i :: 0 <= i < |turns| ==> turns[i].command != Command.Forget(id)
    ensures LetGo(TakeAll(s, turns), id) && TakeAll(s, turns).records[id] == s.records[id]
    decreases |turns|
  {
    if turns != [] {
      TurnKeepsLetGo(s, turns[0], id);
      LetGoStaysLetGo(Take(s, turns[0]), turns[1..], id);
    }
  }

  // ---- a managed cluster is really managed

  /** The genesis node exists and acts on this cluster. */
  predicate ActedOn(s: State, id: Id) {
    s.up && id in s.clusters && !s.clusters[id]
  }

  predicate IsManaged(s: State, id: Id) {
    id in s.records && s.records[id] == Managed
  }

  predicate Honest(s: State, id: Id) {
    && (IsManaged(s, id) ==> ActedOn(s, id))
    && (id in s.clusters && s.clusters[id] ==> LetGo(s, id))
    && (id in s.clusters ==> s.up)
  }

  ghost predicate AllHonest(s: State) {
    forall id :: Honest(s, id)
  }

  /** The one cluster a namespace is for. */
  type Tenant = string -> string

  predicate OnePer(s: State, tenant: Tenant) {
    forall id :: id in s.clusters ==> id.name == tenant(id.namespace)
  }

  /** Commands as the documentation has them: creates and ejections, one cluster per
      namespace, nobody forgetting records, pausing by hand or resetting. */
  predicate Ordinary(c: Command, tenant: Tenant) {
    match c
    case Create(id) => id.name == tenant(id.namespace)
    case Forget(_) => false
    case Reset => false
    case Edit(_, _) => false
    case _ => true
  }

  predicate HandsOver(w: Write) {
    w.Pause? || w.MoveOut? || w.Remove?
  }

  /** Not cut between handing a cluster over and recording it. */
  predicate Sealed(s: State, t: Turn) {
    0 < t.cut < |Writes(s, t.command)| ==> !HandsOver(Writes(s, t.command)[t.cut - 1])
  }

  predicate AllSealed(s: State, turns: seq<Turn>)
    decreases |turns|
  {
    turns == [] || (Sealed(s, turns[0]) && AllSealed(Take(s, turns[0]), turns[1..]))
  }

  lemma {:induction false} TwoWrites(s: State, w: seq<Write>)
    requires |w| == 2
    ensures DoAll(s, w[..0]) == s && DoAll(s, w[..1]) == Do(s, w[0]) && DoAll(s, w) == Do(Do(s, w[0]), w[1])
  {
    assert w[..1] == [] + [w[0]] && w == w[..1] + [w[1]];
    DoAppend(s, [], w[0]);
    DoAppend(s, w[..1], w[1]);
  }

  lemma {:induction false} OneWrite(s: State, w: seq<Write>)
    requires |w| == 1
    ensures DoAll(s, w[..0]) == s && DoAll(s, w) == Do(s, w[0])
  {
    EjectInOrder(s, w);
  }

  lemma {:induction false} CreateHonest(s: State, id: Id, cut: nat, k: Id)
    requires Honest(s, id) && Honest(s, k)
    ensures Honest(Take(s, Turn(Create(id), cut)), k)
  {
    if GenesisManaged(s, id) && s.up { TwoWrites(s, [Apply(id), Remember(id, Managed)]); }
  }

  lemma {:induction false} DeleteHonest(s: State, id: Id, cut: nat, k: Id)
    requires Honest(s, id) && Honest(s, k) && Sealed(s, Turn(Delete(id), cut))
    ensures Honest(Take(s, Turn(Delete(id), cut)), k)
  {
    TwoWrites(s, [Remove(id), Erase(id)]);
    OneWrite(s, [Erase(id)]);
  }

  /** An ejection up to and with its record. */
  function HandedOver(s: State, id: Id, how: Ejection): State {
    Do(Do(Do(s, Remember(id, Managed)), if how.selfManage then MoveOut(id.namespace) else Pause(id, true)),
       Remember(id, if how.selfManage then SelfManaged else Released))
  }

  lemma {:induction false} HandedOverHonest(s: State, id: Id, how: Ejection, tenant: Tenant, k: Id)
    requires Honest(s, id) && Honest(s, k) && OnePer(s, tenant) && s.up && id in s.clusters
    ensures Honest(HandedOver(s, id, how), k) && OnePer(HandedOver(s, id, how), tenant)
    ensures LetGo(HandedOver(s, id, how), id) && HandedOver(s, id, how).up
  {
    assert k in s.clusters && k.namespace == id.namespace ==> k == id;
  }

  /** The genesis node goes only when every cluster outside the ejected namespace is
      paused, and then no record says managed. */
  lemma {:induction false} DropHonest(s: State, id: Id, tenant: Tenant, k: Id)
    requires Honest(s, k) && OnePer(s, tenant) && LetGo(s, id) && id.name == tenant(id.namespace)
    requires !AnyRemains(s, id.namespace)
    ensures !IsManaged(s, k) && Honest(Dropped(s), k)
  {
    assert !Remains(s, id.namespace, k);
  }

  lemma {:induction false} EjectHonest(s: State, id: Id, how: Ejection, cut: nat, tenant: Tenant, k: Id)
    requires Honest(s, id) && Honest(s, k) && OnePer(s, tenant) && Sealed(s, Turn(Eject(id, how), cut))
    ensures Honest(Take(s, Turn(Eject(id, how), cut)), k) && OnePer(Take(s, Turn(Eject(id, how), cut)), tenant)
    ensures s.up && !Take(s, Turn(Eject(id, how), cut)).up ==> !IsManaged(Take(s, Turn(Eject(id, how), cut)), k)
  {
    if Ejects(s, id, how) {
      var writes := EjectWrites(id, how);
      EjectInOrder(s, writes);
      assert Honest(Do(s, Remember(id, Managed)), k);
      if |writes| == 4 {
        HandedOverHonest(s, id, how, tenant, k);
        var s3 := HandedOver(s, id, how);
        if !how.keep && !AnyRemains(s3, id.namespace) { DropHonest(s3, id, tenant, k); }
      }
    }
  }

  lemma {:induction false} PrefixOfLonger(before: seq<Write>, w: Write, cut: nat)
    ensures cut <= |before| ==> Prefix(before + [w], cut) == Prefix(before, cut)
    ensures cut > |before| ==> Prefix(before + [w], cut) == before + [w] && Prefix(before, cut) == before
  {
  }

  lemma {:induction false} DiscoverHonest(s: State, order: seq<Id>, cut: nat, k: Id)
    requires Honest(s, k) && s.up
    ensures
      var t := DoAll(s, Prefix(Additions(s, order), cut));
      Honest(t, k) && t.clusters == s.clusters && t.up == s.up
    decreases |order|
  {
    if order != [] {
      var n := |order| - 1;
      var before := Additions(s, order[..n]);
      DiscoverHonest(s, order[..n], cut, k);
      assert order[..n + 1] == order;
      AdditionsStep(s, order, n);
      if order[n] in s.clusters && order[n] !in s.records {
        PrefixOfLonger(before, Remember(order[n], Managed), cut);
        DoAppend(s, before, Remember(order[n], Managed));
      }
    }
  }

  lemma {:induction false} TurnHonest(s: State, t: Turn, tenant: Tenant, k: Id)
    requires AllHonest(s) && OnePer(s, tenant) && Ordinary(t.command, tenant) && Sealed(s, t)
    ensures Honest(Take(s, t), k) && OnePer(Take(s, t), tenant)
    ensures s.up && !Take(s, t).up ==> !IsManaged(Take(s, t), k)
  {
    assert Honest(s, k);
    match t.command
    case Init => if !s.up { OneWrite(s, [Start]); }
    case Create(id) =>
      assert Honest(s, id);
      CreateHonest(s, id, t.cut, k);
      TwoWrites(s, [Apply(id), Remember(id, Managed)]);
    case Eject(id, how) =>
      assert Honest(s, id);
      EjectHonest(s, id, how, t.cut, tenant, k);
    case Delete(id) =>
      assert Honest(s, id);
      DeleteHonest(s, id, t.cut, k);
      TwoWrites(s, [Remove(id), Erase(id)]);
      OneWrite(s, [Erase(id)]);
    case Discover(order) => if s.up { DiscoverHonest(s, order, t.cut, k); }
    case _ =>
  }

  /** Over every sequence of creates, ejections, deletions and discoveries with one
      cluster per namespace, none cut between handing a cluster over and recording it:
      a cluster recorded as managed is unpaused on a genesis node that exists, and a
      cluster that is paused there has been recorded as let go. */
  lemma {:induction false} ManagedMeansManaged(s: State, turns: seq<Turn>, tenant: Tenant)
    requires AllHonest(s) && OnePer(s, tenant) && AllSealed(s, turns)
    requires forall i :: 0 <= i < |turns| ==> Ordinary(turns[i].command, tenant)
    ensures AllHonest(TakeAll(s, turns)) && OnePer(TakeAll(s, turns), tenant)
    decreases |turns|
  {
    if turns != [] {
      forall k ensures Honest(Take(s, turns[0]), k) { TurnHonest(s, turns[0], tenant, k); }
      TurnHonest(s, turns[0], tenant, Id("", ""));
      ManagedMeansManaged(Take(s, turns[0]), turns[1..], tenant);
    }
  }

  /** The genesis node goes only after the last managed cluster is paused and recorded. */
  lemma {:induction false} GenesisGoesLast(turns: seq<Turn>, tenant: Tenant, last: Turn, k: Id)
    requires AllSealed(Nothing, turns) && Sealed(TakeAll(Nothing, turns), last)
    requires forall i :: 0 <= i < |turns| ==> Ordinary(turns[i].command, tenant)
    requires Ordinary(last.command, tenant)
    requires TakeAll(Nothing, turns).up && !Take(TakeAll(Nothing, turns), last).up
    ensures !IsManaged(Take(TakeAll(Nothing, turns), last), k)
  {
    assert AllHonest(Nothing) && OnePer(Nothing, tenant);
    ManagedMeansManaged(Nothing, turns, tenant);
    TurnHonest(TakeAll(Nothing, turns), last, tenant, k);
  }

  // ---- where each condition is needed, exactly

  /** Handing a cluster over does not change what remains outside its namespace. */
  lemma {:induction false} HandoverKeepsRemaining(s: State, id: Id, how: Ejection)
    ensures AnyRemains(HandedOver(s, id, how), id.namespace) <==> AnyRemains(s, id.namespace)
  {
    var s3 := HandedOver(s, id, how);
    forall c ensures Remains(s3, id.namespace, c) <==> Remains(s, id.namespace, c) {}
    if AnyRemains(s, id.namespace) {
      var c :| c in s.clusters && Remains(s, id.namespace, c);
      assert Remains(s3, id.namespace, c);
    }
    if AnyRemains(s3, id.namespace) {
      var c :| c in s3.clusters && Remains(s3, id.namespace, c);
      assert Remains(s, id.namespace, c);
    }
  }

  /** Two clusters in one namespace: a full ejection of one strands the other, which
      stays recorded as managed, exactly when it moves the namespace away, or when it
      releases the cluster, does not keep the node and nothing outside the namespace is
      left unpaused. */
  lemma {:induction false} EjectionStrandsIff(s: State, id: Id, how: Ejection, b: Id)
    requires AllHonest(s) && Ejects(s, id, how) && IsManaged(s, b) && b != id
    ensures !ActedOn(Take(s, Turn(Eject(id, how), 4)), b) <==>
            && b.namespace == id.namespace
            && (if how.selfManage then how.able else !how.keep && !AnyRemains(s, id.namespace))
    ensures IsManaged(Take(s, Turn(Eject(id, how), 4)), b)
  {
    assert Honest(s, b);
    EjectInOrder(s, EjectWrites(id, how));
    HandoverKeepsRemaining(s, id, how);
    if b.namespace != id.namespace { assert Remains(s, id.namespace, b); }
  }

  /** A create that is let through makes a record that lies exactly when the cluster is
      still on the genesis node, paused: applying leaves paused as it is. */
  lemma {:induction false} CreateLiesIff(s: State, id: Id)
    requires s.up && GenesisManaged(s, id)
    ensures IsManaged(Take(s, Turn(Create(id), 2)), id)
    ensures !ActedOn(Take(s, Turn(Create(id), 2)), id) <==> id in s.clusters && s.clusters[id]
  {
    TwoWrites(s, [Apply(id), Remember(id, Managed)]);
  }

  /** So forgetting a released cluster and creating or discovering it again leaves a
      managed record of a cluster nothing acts on. */
  lemma {:induction false} ForgetThenCreateLies(s: State, id: Id)
    requires s.up && LetGo(s, id) && id in s.clusters && s.clusters[id]
    ensures
      var created := Take(Take(s, Turn(Command.Forget(id), 1)), Turn(Create(id), 2));
      IsManaged(created, id) && !ActedOn(created, id)
    ensures
      var found := Take(Take(s, Turn(Command.Forget(id), 1)), Turn(Discover([id]), 1));
      IsManaged(found, id) && !ActedOn(found, id)
  {
    OneWrite(s, [Erase(id)]);
    var forgotten := Take(s, Turn(Command.Forget(id), 1));
    CreateLiesIff(forgotten, id);
    assert [id][..0] == [];
    assert Additions(forgotten, [id]) == [] + [Remember(id, Managed)];
    OneWrite(forgotten, [Remember(id, Managed)]);
  }

  /** An ejection that is cut lies, with a record of a managed cluster that nothing acts
      on, exactly when it had handed the cluster over and not recorded that. */
  lemma {:induction false} CutEjectionLiesIff(s: State, id: Id, how: Ejection, cut: nat)
    requires Ejects(s, id, how) && ActedOn(s, id)
    ensures
      var broken := Take(s, Turn(Eject(id, how), cut));
      IsManaged(broken, id) && !ActedOn(broken, id) <==> cut == 2 && (how.selfManage ==> how.able)
  {
    EjectInOrder(s, EjectWrites(id, how));
  }

  /** Cut before it hands the cluster over, an ejection can simply be repeated. */
  lemma {:induction false} EarlyCutIsMended(s: State, id: Id, how: Ejection, cut: nat)
    requires Ejects(s, id, how) && |EjectWrites(id, how)| == 4 && (cut <= 1 || (cut == 2 && !how.selfManage))
    ensures Take(Take(s, Turn(Eject(id, how), cut)), Turn(Eject(id, how), 4)) == Take(s, Turn(Eject(id, how), 4))
  {
    var writes := EjectWrites(id, how);
    var broken := Take(s, Turn(Eject(id, how), cut));
    EjectInOrder(s, writes);
    assert Ejects(broken, id, how);
    EjectInOrder(broken, writes);
    assert broken.records[id := Managed] == s.records[id := Managed];
    assert broken.clusters[id := true] == s.clusters[id := true];
    assert HandedOver(broken, id, how) == HandedOver(s, id, how);
  }

  /** Cut later, it is refused when repeated: the cluster is no longer on the genesis
      node, or its record no longer says managed. */
  lemma {:induction false} LateCutIsRefused(s: State, id: Id, how: Ejection, cut: nat, again: Ejection, k: nat)
    requires Ejects(s, id, how) && |EjectWrites(id, how)| == 4 && cut >= 2 && (cut == 2 ==> how.selfManage)
    ensures
      var broken := Take(s, Turn(Eject(id, how), cut));
      Take(broken, Turn(Eject(id, again), k)) == broken
  {
    EjectInOrder(s, EjectWrites(id, how));
    var broken := Take(s, Turn(Eject(id, how), cut));
    assert !Ejects(broken, id, again);
  }

  /** For every ejection and every cut: repeating it ends where one full ejection would
      have ended, unless it was cut between moving the namespace away and recording
      that, or between recording and deleting a genesis node that had to go. */
  lemma {:induction false} RepeatMendsIff(s: State, id: Id, how: Ejection, cut: nat)
    requires Ejects(s, id, how) && cut <= 4
    ensures Take(Take(s, Turn(Eject(id, how), cut)), Turn(Eject(id, how), 4)) == Take(s, Turn(Eject(id, how), 4)) <==>
            || (how.selfManage && !how.able)
            || (!(how.selfManage && cut == 2) && (cut != 3 || how.keep || AnyRemains(s, id.namespace)))
  {
    var writes := EjectWrites(id, how);
    var broken := Take(s, Turn(Eject(id, how), cut));
    EjectInOrder(s, writes);
    if |writes| == 1 {
      EjectInOrder(broken, writes);
      assert broken.records[id := Managed] == s.records[id := Managed];
    } else if cut <= 1 || (cut == 2 && !how.selfManage) {
      EarlyCutIsMended(s, id, how, cut);
    } else {
      LateCutIsRefused(s, id, how, cut, how, 4);
      HandoverKeepsRemaining(s, id, how);
      var whole, s3 := Take(s, Turn(Eject(id, how), 4)), HandedOver(s, id, how);
      assert whole == Do(s3, DropIfDone(id.namespace, how.keep)) && s3.up;
      if cut == 2 {
        assert broken.records[id] == Managed && whole.records[id] == SelfManaged;
      } else if cut == 3 {
        assert broken == s3;
      }
    }
  }

  // ---- what whole commands do

  /** A full release, nothing kept: the genesis node goes exactly when every cluster of
      every other namespace is paused already. */
  lemma {:induction false} NodeGoesIff(s: State, id: Id, how: Ejection)
    requires Ejects(s, id, how) && !how.selfManage
    ensures !Take(s, Turn(Eject(id, how), 4)).up <==>
            !how.keep && forall c :: c in s.clusters && c.namespace != id.namespace ==> s.clusters[c]
    ensures
      var after := Take(s, Turn(Eject(id, how), 4));
      after.up ==> id in after.clusters && after.clusters[id]
    ensures LetGo(Take(s, Turn(Eject(id, how), 4)), id)
  {
    EjectInOrder(s, EjectWrites(id, how));
    HandoverKeepsRemaining(s, id, how);
    if AnyRemains(s, id.namespace) {
      var c :| c in s.clusters && Remains(s, id.namespace, c);
    } else {
      forall c | c in s.clusters && c.namespace != id.namespace ensures s.clusters[c] {
        assert !Remains(s, id.namespace, c);
      }
    }
  }

  /** An ejection does something exactly for a cluster that is recorded as managed or not
      at all, on a node that is up and has it, when it is ready, and not on a dry run. */
  lemma {:induction false} EjectsIff(s: State, id: Id, how: Ejection)
    ensures Ejects(s, id, how) <==>
            && (id in s.records ==> s.records[id] == Managed)
            && s.up && id in s.clusters && how.ready && !how.dryRun
    ensures Ejects(s, id, how) <==> Writes(s, Eject(id, how)) != []
  {
  }

  /** A full create puts the cluster on the node, paused only if it was, and records it. */
  lemma {:induction false} CreateDoes(s: State, id: Id)
    requires s.up && (id in s.records ==> s.records[id] == Managed)
    ensures
      var after := Take(s, Turn(Create(id), 2));
      && after.clusters == s.clusters[id := id in s.clusters && s.clusters[id]]
      && after.records == s.records[id := Managed] && after.up
  {
    TwoWrites(s, [Apply(id), Remember(id, Managed)]);
  }

  /** A full delete takes the cluster off the node and its record away. */
  lemma {:induction false} DeleteDoes(s: State, id: Id)
    requires s.up && (id in s.records ==> s.records[id] == Managed)
    ensures
      var after := Take(s, Turn(Delete(id), 2));
      after.clusters == s.clusters - {id} && after.records == s.records - {id} && after.up
  {
    if id in s.clusters { TwoWrites(s, [Remove(id), Erase(id)]); } else { OneWrite(s, [Erase(id)]); }
  }

  /** A reset takes the genesis node away and leaves every record. */
  lemma {:induction false} ResetDoes(s: State)
    requires s.up
    ensures Take(s, Turn(Reset, 1)) == s.(up := false, clusters := map[])
  {
    OneWrite(s, [Drop]);
  }

  /** Creating, ejecting and deleting are refused for a cluster that was let go. */
  lemma {:induction false} LetGoIsRefused(s: State, id: Id, how: Ejection, cut: nat)
    requires LetGo(s, id)
    ensures Take(s, Turn(Create(id), cut)) == s && Take(s, Turn(Delete(id), cut)) == s && Take(s, Turn(Eject(id, how), cut)) == s
  {
  }

  /** A full discovery records every cluster nobody had recorded, and changes nothing else. */
  lemma {:induction false} DiscoverDoes(s: State, order: seq<Id>, c: Id)
    requires s.up
    ensures
      var after := DoAll(s, Additions(s, order));
      && after.clusters == s.clusters && after.up
      && (c in s.records ==> c in after.records && after.records[c] == s.records[c])
      && (c !in s.records && c in s.clusters && c in order ==> c in after.records && after.records[c] == Managed)
      && (c !in s.records && !(c in s.clusters && c in order) ==> c !in after.records)
    decreases |order|
  {
    if order != [] {
      var n := |order| - 1;
      DiscoverDoes(s, order[..n], c);
      assert order[..n + 1] == order;
      AdditionsStep(s, order, n);
      if order[n] in s.clusters && order[n] !in s.records {
        DoAppend(s, Additions(s, order[..n]), Remember(order[n], Managed));
      }
      assert c in order <==> c in order[..n] || c == order[n];
    }
  }

  // ---- runs that get there

  /** A genesis node with one cluster, or with two. */
  function Built(ids: seq<Id>): seq<Turn> {
    if ids == [] then [Turn(Init, 1)] else Built(ids[..|ids| - 1]) + [Turn(Create(ids[|ids| - 1]), 2)]
  }

  lemma {:induction false} TakeAllConcat(s: State, a: seq<Turn>, b: seq<Turn>)
    ensures TakeAll(s, a + b) == TakeAll(TakeAll(s, a), b)
    decreases |a|
  {
    if a == [] {
      assert a + b == b;
    } else {
      assert (a + b)[0] == a[0] && (a + b)[1..] == a[1..] + b;
      TakeAllConcat(Take(s, a[0]), a[1..], b);
    }
  }

  lemma {:induction false} TakeAllOne(s: State, t: Turn)
    ensures TakeAll(s, [t]) == Take(s, t)
  {
    assert [t][1..] == [];
  }

  /** Building distinct clusters makes each of them managed and acted on. */
  lemma {:induction false} BuiltMeans(ids: seq<Id>)
    requires forall i, j :: 0 <= i < j < |ids| ==> ids[i] != ids[j]
    ensures
      var s := TakeAll(Nothing, Built(ids));
      && s.up && AllHonest(s)
      && (forall k :: k in ids <==> IsManaged(s, k))
      && (forall k :: k in ids <==> k in s.records)
      && (forall k :: k in ids <==> k in s.clusters)
    decreases |ids|
  {
    if ids == [] {
      TakeAllOne(Nothing, Turn(Init, 1));
      OneWrite(Nothing, [Start]);
    } else {
      var n := |ids| - 1;
      var id := ids[n];
      BuiltMeans(ids[..n]);
      var s := TakeAll(Nothing, Built(ids[..n]));
      TakeAllConcat(Nothing, Built(ids[..n]), [Turn(Create(id), 2)]);
      TakeAllOne(s, Turn(Create(id), 2));
      TwoWrites(s, [Apply(id), Remember(id, Managed)]);
      var s' := Take(s, Turn(Create(id), 2));
      forall k ensures Honest(s', k) { assert Honest(s, k) && Honest(s, id); CreateHonest(s, id, 2, k); }
      assert forall k :: k in ids <==> k in ids[..n] || k == id;
    }
  }

  const Release := Ejection(false, false, false, true, true)
  const SelfManage := Ejection(true, false, false, true, true)

  /** Two clusters built in one namespace: releasing the first deletes the genesis node
      under the second, which is still recorded as managed. */
  lemma {:induction false} NeighbourIsStranded(namespace: string, a: string, b: string)
    requires a != b
    ensures
      var x, y := Id(namespace, a), Id(namespace, b);
      var end := TakeAll(Nothing, Built([x, y]) + [Turn(Eject(x, Release), 4)]);
      !end.up && IsManaged(end, y)
  {
    var x, y := Id(namespace, a), Id(namespace, b);
    var s := TakeAll(Nothing, Built([x, y]));
    BuiltMeans([x, y]);
    assert x in [x, y] && y in [x, y];
    TakeAllConcat(Nothing, Built([x, y]), [Turn(Eject(x, Release), 4)]);
    TakeAllOne(s, Turn(Eject(x, Release), 4));
    EjectionStrandsIff(s, x, Release, y);
    EjectInOrder(s, EjectWrites(x, Release));
    HandoverKeepsRemaining(s, x, Release);
    assert !AnyRemains(s, namespace);
  }

  /** A cluster moved into itself whose record could not be written: it is recorded as
      managed, the genesis node does not have it, and every later ejection is refused. */
  lemma {:induction false} UnrecordedMoveIsStuck(id: Id, again: Ejection, k: nat)
    ensures
      var end := TakeAll(Nothing, Built([id]) + [Turn(Eject(id, SelfManage), 2)]);
      IsManaged(end, id) && id !in end.clusters && Take(end, Turn(Eject(id, again), k)) == end
  {
    var s := TakeAll(Nothing, Built([id]));
    BuiltMeans([id]);
    assert id in [id];
    TakeAllConcat(Nothing, Built([id]), [Turn(Eject(id, SelfManage), 2)]);
    TakeAllOne(s, Turn(Eject(id, SelfManage), 2));
    EjectInOrder(s, EjectWrites(id, SelfManage));
    LateCutIsRefused(s, id, SelfManage, 2, again, k);
  }

  /** The last cluster released and recorded, the command cut there: the genesis node
      stays with nothing to manage, and every later ejection is refused. */
  lemma {:induction false} IdleNodeStays(id: Id, again: Ejection, k: nat)
    ensures
      var end := TakeAll(Nothing, Built([id]) + [Turn(Eject(id, Release), 3)]);
      && end.up && LetGo(end, id) && !TakeAll(Nothing, Built([id]) + [Turn(Eject(id, Release), 4)]).up
      && Take(end, Turn(Eject(id, again), k)) == end
  {
    var s := TakeAll(Nothing, Built([id]));
    BuiltMeans([id]);
    assert id in [id];
    TakeAllConcat(Nothing, Built([id]), [Turn(Eject(id, Release), 3)]);
    TakeAllConcat(Nothing, Built([id]), [Turn(Eject(id, Release), 4)]);
    TakeAllOne(s, Turn(Eject(id, Release), 3));
    TakeAllOne(s, Turn(Eject(id, Release), 4));
    EjectInOrder(s, EjectWrites(id, Release));
    HandoverKeepsRemaining(s, id, Release);
    assert !AnyRemains(s, id.namespace);
    LateCutIsRefused(s, id, Release, 3, again, k);
  }

  lemma {:induction false} KeptRelease(id: Id)
    ensures
      var s := TakeAll(Nothing, Built([id]) + [Turn(Eject(id, Release.(keep := true)), 4)]);
      s.up && LetGo(s, id) && id in s.clusters && s.clusters[id]
  {
    var eject := Turn(Eject(id, Release.(keep := true)), 4);
    var s := TakeAll(Nothing, Built([id]));
    BuiltMeans([id]);
    assert id in [id];
    EjectInOrder(s, EjectWrites(id, Release.(keep := true)));
    TakeAllConcat(Nothing, Built([id]), [eject]);
    TakeAllOne(s, eject);
  }

  lemma {:induction false} TakeTwo(s: State, a: Turn, b: Turn)
    ensures TakeAll(s, [a, b]) == Take(Take(s, a), b)
  {
    assert [a, b] == [a] + [b];
    TakeAllConcat(s, [a], [b]);
    TakeAllOne(s, a);
    TakeAllOne(Take(s, a), b);
  }

  /** A cluster released with the genesis node kept, then forgotten and created again:
      recorded as managed, and nothing acts on it. */
  lemma {:induction false} ForgottenReleaseLies(id: Id)
    ensures
      var turns := Built([id]) + [Turn(Eject(id, Release.(keep := true)), 4)] + [Turn(Command.Forget(id), 1), Turn(Create(id), 2)];
      IsManaged(TakeAll(Nothing, turns), id) && !ActedOn(TakeAll(Nothing, turns), id)
  {
    var first := Built([id]) + [Turn(Eject(id, Release.(keep := true)), 4)];
    var forget, create := Turn(Command.Forget(id), 1), Turn(Create(id), 2);
    KeptRelease(id);
    ForgetThenCreateLies(TakeAll(Nothing, first), id);
    TakeAllConcat(Nothing, first, [forget, create]);
    TakeTwo(TakeAll(Nothing, first), forget, create);
  }
}
