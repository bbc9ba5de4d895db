/** The genesis node, the clusters on it and the registry, as the commands that change
    them leave them (internal/cli/pivot.go, clusters.go, cluster.go, registry.go). */
module Genesis {
  import opened Objects
  import opened Registry

  /** What each record says, whether the genesis node exists, and the clusters on it:
      true is paused. */
  datatype State = State(records: map<Id, Mode>, up: bool, clusters: map<Id, bool>)

  const Nothing := State(map[], false, map[])

  /** One write to the world outside. */
  datatype Write =
    | Start
    | Apply(id: Id)
    | Remember(id: Id, mode: Mode)
    | Erase(id: Id)
    | Pause(id: Id, paused: bool)
    | MoveOut(namespace: string)
    | Remove(id: Id)
    | DropIfDone(ejected: string, keep: bool)
    | Drop

  /** A cluster that is a reason to keep the genesis node. */
  predicate Remains(s: State, ejected: string, c: Id) {
    c in s.clusters && c.namespace != ejected && !s.clusters[c]
  }

  predicate AnyRemains(s: State, ejected: string) {
    exists c :: c in s.clusters && Remains(s, ejected, c)
  }

  function Dropped(s: State): State {
    s.(up := false, clusters := map[])
  }

  function Do(s: State, w: Write): State {
    match w
    case Start => s.(up := true)
    case Apply(id) => s.(clusters := s.clusters[id := id in s.clusters && s.clusters[id]])
    case Remember(id, mode) => s.(records := s.records[id := mode])
    case Erase(id) => s.(records := s.records - {id})
    case Pause(id, paused) => s.(clusters := s.clusters[id := paused])
    case MoveOut(namespace) => s.(clusters := map c | c in s.clusters && c.namespace != namespace :: s.clusters[c])
    case Remove(id) => s.(clusters := s.clusters - {id})
    case DropIfDone(ejected, keep) => if keep || AnyRemains(s, ejected) then s else Dropped(s)
    case Drop => Dropped(s)
  }

  function DoAll(s: State, writes: seq<Write>): State {
    if writes == [] then s else Do(DoAll(s, writes[..|writes| - 1]), writes[|writes| - 1])
  }

  /** ready: the cluster is healthy; able: it may manage itself and the move succeeds. */
  datatype Ejection = Ejection(selfManage: bool, dryRun: bool, keep: bool, ready: bool, able: bool)

  datatype Command =
    | Init
    | Create(id: Id)
    | Eject(id: Id, how: Ejection)
    | Delete(id: Id)
    | Discover(order: seq<Id>)
    | Forget(id: Id)
    | Reset
    | Edit(id: Id, paused: bool) // an operator, by hand

  /** requireGenesisManaged. */
  predicate GenesisManaged(s: State, id: Id) {
    id in s.records ==> s.records[id] == Managed
  }

  predicate Ejects(s: State, id: Id, how: Ejection) {
    GenesisManaged(s, id) && s.up && id in s.clusters && how.ready && !how.dryRun
  }

  function Additions(s: State, order: seq<Id>): seq<Write> {
    if order == [] then []
    else
      var last := order[|order| - 1];
      Additions(s, order[..|order| - 1])
      + (if last in s.clusters && last !in s.records then [Remember(last, Managed)] else [])
  }

  function EjectWrites(id: Id, how: Ejection): seq<Write> {
    if how.selfManage && !how.able then [Remember(id, Managed)]
    else
      [Remember(id, Managed),
       if how.selfManage then MoveOut(id.namespace) else Pause(id, true),
       Remember(id, if how.selfManage then SelfManaged else Released),
       DropIfDone(id.namespace, how.keep)]
  }

  /** The writes of a command, in order. */
  function Writes(s: State, c: Command): seq<Write> {
    match c
    case Init => if s.up then [] else [Start]
    case Create(id) => if GenesisManaged(s, id) && s.up then [Apply(id), Remember(id, Managed)] else []
    case Eject(id, how) => if Ejects(s, id, how) then EjectWrites(id, how) else []
    case Delete(id) =>
      if !GenesisManaged(s, id) || !s.up then []
      else if id in s.clusters then [Remove(id), Erase(id)]
      else [Erase(id)]
    case Discover(order) => if s.up then Additions(s, order) else []
    case Forget(id) => [Erase(id)]
    case Reset => if s.up then [Drop] else []
    case Edit(id, paused) => if s.up && id in s.clusters then [Pause(id, paused)] else []
  }

  /** A command that dies, or fails, after some of its writes. */
  datatype Turn = Turn(command: Command, cut: nat)

  function Prefix(writes: seq<Write>, cut: nat): seq<Write> {
    if cut < |writes| then writes[..cut] else writes
  }

  function Take(s: State, t: Turn): State {
    DoAll(s, Prefix(Writes(s, t.command), t.cut))
  }

  function TakeAll(s: State, turns: seq<Turn>): State
    decreases |turns|
  {
    if turns == [] then s else TakeAll(Take(s, turns[0]), turns[1..])
  }

  // ---- the code

  class Cli {
    var state: State
    var left: nat  // writes until the process dies or a write fails

    constructor (s: State, left: nat)
      ensures state == s && this.left == left
    {
      state, this.left := s, left;
    }

    method Write(w: Write) returns (ok: bool)
      modifies this
      ensures ok == (old(left) > 0)
      ensures state == if ok then Do(old(state), w) else old(state)
      ensures left == if ok then old(left) - 1 else 0
    {
      ok := left > 0;
      if ok {
        state := Do(state, w);
        left := left - 1;
      }
    }

    /** pauseCluster: up to five attempts while somebody else keeps writing. */
    method PauseCluster(id: Id, conflicts: nat) returns (ok: bool)
      modifies this
      ensures ok <==> id in old(state).clusters && (old(state).clusters[id] || (conflicts < 5 && old(left) > 0))
      ensures state == if ok then Do(old(state), Pause(id, true)) else old(state)
      ensures ok ==> left == if old(state).clusters[id] then old(left) else old(left) - 1
    {
      for attempt := 0 to 5
        invariant state == old(state) && left == old(left)
        invariant attempt <= conflicts
        invariant attempt > 0 ==> id in state.clusters && !state.clusters[id]
      {
        if id !in state.clusters { return false; }
        if state.clusters[id] {
          assert state.clusters[id := true] == state.clusters;
          return true;
        }
        if attempt == conflicts {
          ok := Write(Pause(id, true));
          return;
        }
      }
      ok := false;
    }

    /** clustersRemaining */
    method ClustersRemaining(list: seq<Id>, ejected: string) returns (names: seq<Id>)
      requires forall c :: c in list <==> c in state.clusters
      ensures forall c :: c in names <==> c in list && Remains(state, ejected, c)
      ensures forall c :: c in names <==> c in state.clusters && c.namespace != ejected && !state.clusters[c]
      ensures names == [] <==> !AnyRemains(state, ejected)
    {
      names := [];
      for i := 0 to |list|
        invariant forall c :: c in names <==> c in list[..i] && Remains(state, ejected, c)
      {
        assert list[..i + 1] == list[..i] + [list[i]];
        assert list[i] in list;
        if list[i].namespace == ejected { continue; }
        if state.clusters[list[i]] { continue; }
        names := names + [list[i]];
      }
      assert list[..|list|] == list;
      if names != [] {
        assert names[0] in names;
        assert Remains(state, ejected, names[0]);
      }
    }

    /** The handover: the namespace moves away, or the cluster is paused. */
    method HandOver(id: Id, selfManage: bool, conflicts: nat) returns (ok: bool)
      requires id in state.clusters
      modifies this
      ensures state == if ok then Do(old(state), if selfManage then MoveOut(id.namespace) else Pause(id, true)) else old(state)
      ensures ok <==> if selfManage then old(left) > 0 else old(state).clusters[id] || (conflicts < 5 && old(left) > 0)
      ensures ok ==> left == if !selfManage && old(state).clusters[id] then old(left) else old(left) - 1
    {
      if selfManage {
        ok := Write(MoveOut(id.namespace));
      } else {
        ok := PauseCluster(id, conflicts);
      }
    }

    /** What follows the handover: the record, and the genesis node if it can go. */
    method Conclude(id: Id, how: Ejection, list: seq<Id>) returns (done: bool)
      requires forall c :: c in list <==> c in state.clusters
      modifies this
      ensures
        var recorded := Do(old(state), Remember(id, if how.selfManage then SelfManaged else Released));
        state == if old(left) == 0 then old(state)
                 else if old(left) == 1 then recorded
                 else Do(recorded, DropIfDone(id.namespace, how.keep))
      ensures done ==> state == Do(Do(old(state), Remember(id, if how.selfManage then SelfManaged else Released)),
                                   DropIfDone(id.namespace, how.keep))
    {
      var ok := Write(Remember(id, if how.selfManage then SelfManaged else Released));
      if !ok { return false; }
      var remaining := ClustersRemaining(list, id.namespace);
      if how.keep || |remaining| > 0 { return true; }
      done := Write(Drop);
    }

    /** The eject command.  Whatever it dies of, what it did is a beginning of its
        writes, in their order: as many as it was given, unless others kept it from
        pausing the cluster or the cluster was paused already. */
    method RunEject(id: Id, how: Ejection, list: seq<Id>, conflicts: nat) returns (done: bool, ghost cut: nat)
      requires forall c :: c in list <==>
                 c in DoAll(state, Prefix(Writes(state, Eject(id, how)), 3)).clusters
      modifies this
      ensures state == Take(old(state), Turn(Eject(id, how), cut))
      ensures how.selfManage || (conflicts < 5 && id in old(state).clusters && !old(state).clusters[id]) ==> cut == old(left)
      ensures !how.selfManage && conflicts >= 5 && id in old(state).clusters && !old(state).clusters[id] ==> cut <= 1
      ensures done ==> state == DoAll(old(state), Writes(old(state), Eject(id, how)))
      ensures !how.ready || how.dryRun || !old(state).up || id !in old(state).clusters ==> state == old(state)
      ensures id in old(state).records && old(state).records[id] != Managed ==> state == old(state)
    {
      ghost var s := state;
      done, cut := false, if how.selfManage || conflicts < 5 then left else 0;
      if id in state.records && state.records[id] != Managed { return; }
      if !state.up { return; }
      if id !in state.clusters || !how.ready { return; }
      if how.dryRun { return true, cut; }
      EjectInOrder(s, EjectWrites(id, how));
      var ok := Write(Remember(id, Managed));
      if !ok { return; }
      if how.selfManage && !how.able { return; }
      ok := HandOver(id, how.selfManage, conflicts);
      if !ok { return false, 1; }
      cut := left + 2;
      done := Conclude(id, how, list);
    }

    /** discoverClusters: only identities nobody has recorded are added. */
    method RunDiscover(order: seq<Id>) returns (done: bool)
      modifies this
      ensures state == Take(old(state), Turn(Discover(order), old(left)))
    {
      ghost var s, n := state, left;
      if !state.up { return false; }
      var rows := state.records;
      ghost var written: seq<Write> := [];
      assert order[..0] == [];
      for i := 0 to |order|
        invariant rows == s.records && state.clusters == s.clusters
        invariant written == Additions(s, order[..i])
        invariant |written| + left == n && state == DoAll(s, written)
      {
        AdditionsStep(s, order, i);
        if order[i] in state.clusters && order[i] !in rows {
          var ok := Write(Remember(order[i], Managed));
          if !ok {
            CutHere(s, order, i);
            assert Prefix(Additions(s, order), n) == written;
            return false;
          }
          DoAppend(s, written, Remember(order[i], Managed));
          written := written + [Remember(order[i], Managed)];
        }
      }
      assert order[..|order|] == order;
      done := true;
    }

    /** selectRecord with a selector: the one record it names, by name or in full. */
    method SelectRecord(list: seq<Id>, selector: string) returns (r: Option<Id>)
      requires forall i, j :: 0 <= i < j < |list| ==> list[i] != list[j]
      ensures r.Some? ==> r.value in list && Names(selector, r.value)
      ensures r.Some? <==> exists c :: c in list && Names(selector, c) && forall d :: d in list && Names(selector, d) ==> d == c
      ensures r.Some? ==> selector == r.value.name || selector == r.value.namespace + "/" + r.value.name
      ensures r.Some? ==> forall d :: d in list && (selector == d.name || selector == d.namespace + "/" + d.name) ==> d == r.value
      ensures |list| == 1 && (selector == list[0].name || selector == list[0].namespace + "/" + list[0].name) ==> r == Some(list[0])
    {
      var found: Option<Id> := None;
      for i := 0 to |list|
        invariant found.Some? ==> found.value in list[..i] && Names(selector, found.value)
        invariant forall d :: d in list[..i] && Names(selector, d) ==> found == Some(d)
      {
        assert list[..i + 1] == list[..i] + [list[i]];
        if !Names(selector, list[i]) { continue; }
        if found.Some? {
          assert list[i] in list && found.value in list && found.value != list[i];
          return None;
        }
        found := Some(list[i]);
      }
      assert list[..|list|] == list;
      r := found;
    }
  }

  predicate Names(selector: string, id: Id) {
    selector == id.name || selector == id.namespace + "/" + id.name
  }

  lemma {:induction false} DoAppend(s: State, writes: seq<Write>, w: Write)
    ensures DoAll(s, writes + [w]) == Do(DoAll(s, writes), w)
  {
    assert (writes + [w])[..|writes|] == writes;
  }

  /** The states a command with one or four writes goes through. */
  lemma {:induction false} EjectInOrder(s: State, w: seq<Write>)
    requires |w| == 1 || |w| == 4
    ensures DoAll(s, w[..0]) == s
    ensures |w| == 1 ==> DoAll(s, w) == Do(s, w[0])
    ensures |w| == 4 ==>
              && DoAll(s, w[..1]) == Do(s, w[0])
              && DoAll(s, w[..2]) == Do(Do(s, w[0]), w[1])
              && DoAll(s, w[..3]) == Do(Do(Do(s, w[0]), w[1]), w[2])
              && DoAll(s, w) == Do(Do(Do(Do(s, w[0]), w[1]), w[2]), w[3])
  {
    assert w[..1] == [] + [w[0]];
    DoAppend(s, [], w[0]);
    if |w| == 1 {
      assert w == w[..1];
    } else {
      assert w[..2] == w[..1] + [w[1]] && w[..3] == w[..2] + [w[2]] && w == w[..3] + [w[3]];
      DoAppend(s, w[..1], w[1]);
      DoAppend(s, w[..2], w[2]);
      DoAppend(s, w[..3], w[3]);
    }
  }

  lemma {:induction false} AdditionsStep(s: State, order: seq<Id>, i: nat)
    requires i < |order|
    ensures Additions(s, order[..i + 1]) ==
            if order[i] in s.clusters && order[i] !in s.records then Additions(s, order[..i]) + [Remember(order[i], Managed)]
            else Additions(s, order[..i])
  {
    assert order[..i + 1][..i] == order[..i];
  }

  lemma {:induction false} CutHere(s: State, order: seq<Id>, i: nat)
    requires i < |order| && order[i] in s.clusters && order[i] !in s.records
    ensures Prefix(Additions(s, order), |Additions(s, order[..i])|) == Additions(s, order[..i])
  {
    AdditionsStep(s, order, i);
    AdditionsGrow(s, order, i + 1);
  }

  lemma {:induction false} AdditionsGrow(s: State, order: seq<Id>, i: nat)
    requires i <= |order|
    ensures Additions(s, order[..i]) <= Additions(s, order)
    decreases |order|
  {
    if i < |order| {
      var n := |order| - 1;
      assert order[..n][..i] == order[..i];
      AdditionsGrow(s, order[..n], i);
    } else {
      assert order[..i] == order;
    }
  }
}
