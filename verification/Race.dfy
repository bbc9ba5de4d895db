/** n machines with one selector race for a pool: whatever the interleaving, label
    overwrites, conflicts and crashes, the hosts they end up with are the first n
    eligible ones in inventory order (docs/rollout-order.md). */
module Race {
  import opened Objects
  import opened Claims
  import opened ClaimSafety
  import opened ClaimTheorems
  import Inventory

  /** The host carries the label of one of the racers. */
  ghost predicate Touched(w: World, racers: set<string>, h: string) {
    h in w.hosts && w.hosts[h].claimedBy.Some? && w.hosts[h].claimedBy.value in racers
  }

  ghost predicate InPool(start: World, selector: Selector, h: string) {
    h in start.hosts && Eligible(start.hosts[h], selector)
  }

  ghost predicate RacerOk(w: World, selector: Selector, m: string) {
    && m in w.machines && !w.machines[m].deleting && w.machines[m].selector == selector
    && (w.machines[m].hostRef.Some? ==> w.machines[m].hostRef.value in w.hosts)
  }

  /** The start: the racers exist, hold nothing and have touched nothing. */
  ghost predicate AtStart(start: World, racers: set<string>, selector: Selector) {
    && Inv(start)
    && (forall m :: m in racers ==> RacerOk(start, selector, m) && m !in start.passes && start.machines[m].hostRef == None)
    && (forall h :: h in start.hosts ==> !Touched(start, racers, h))
  }

  /** Only the racers' reconciles run: no release, no probe write, no operator. */
  predicate Racing(a: Action, racers: set<string>) {
    a.Reconcile? && a.machine in racers && !a.call.LosePatch?
  }

  /** A racer that is past a host in its list has seen it touched. */
  ghost predicate WalkOk(start: World, w: World, racers: set<string>, selector: Selector, list: map<string, Host>, rest: seq<string>) {
    && Ascending(rest) && list.Keys == start.hosts.Keys
    && (forall h :: h in list ==> list[h] == start.hosts[h] || (Touched(w, racers, h) && InPool(start, selector, h)))
    && (forall h :: InPool(start, selector, h) ==> h in rest || Touched(w, racers, h))
  }

  ghost predicate RacerPassOk(start: World, w: World, racers: set<string>, selector: Selector, p: Pass) {
    match p
    case Begun(read) => read.selector == selector && (read.hostRef.Some? ==> read.hostRef.value in w.hosts)
    case Walking(s, list, rest) => s == selector && WalkOk(start, w, racers, selector, list, rest)
    case Recording(h, _) => h in w.hosts
    case Holding(h, _) => h in w.hosts
    case Finishing(ref) => ref.Some? ==> ref.value in w.hosts
    case _ => false
  }

  ghost predicate HostsRace(start: World, w: World, racers: set<string>, selector: Selector) {
    && w.hosts.Keys == start.hosts.Keys && w.era == start.era
    && (forall h :: h in w.hosts ==>
          if Touched(w, racers, h) then InPool(start, selector, h) else w.hosts[h] == start.hosts[h])
    && (forall h, k :: InPool(start, selector, h) && Inventory.Compare(h, k) < 0 && Touched(w, racers, k) ==> Touched(w, racers, h))
  }

  ghost predicate RaceInv(start: World, w: World, racers: set<string>, selector: Selector) {
    && HostsRace(start, w, racers, selector)
    && (forall m :: m in racers ==> RacerOk(w, selector, m))
    && (forall m :: m in racers && m in w.passes ==> RacerPassOk(start, w, racers, selector, w.passes[m]))
  }

  /** Any change that touches at most one more host, in order, and m's own pass. */
  lemma {:induction false} RaceStep(start: World, w: World, w': World, racers: set<string>, selector: Selector, m: string)
    requires RaceInv(start, w, racers, selector) && m in racers
    requires forall k :: k != m ==> Framed(w, w', k)
    requires RacerOk(w', selector, m)
    requires HostsRace(start, w', racers, selector)
    requires forall h :: Touched(w, racers, h) ==> Touched(w', racers, h)
    requires m in w'.passes ==> RacerPassOk(start, w', racers, selector, w'.passes[m])
    ensures RaceInv(start, w', racers, selector)
  {
    forall k | k in racers
      ensures RacerOk(w', selector, k)
    {
      if k != m { assert Framed(w, w', k) && MachineOf(w', k) == MachineOf(w, k) && RacerOk(w, selector, k); }
    }
    forall k | k in racers && k in w'.passes
      ensures RacerPassOk(start, w', racers, selector, w'.passes[k])
    {
      if k != m {
        assert Framed(w, w', k) && PassOf(w', k) == PassOf(w, k);
      }
    }
  }

  // ---- the racers' steps

  lemma {:induction false} ListIsOk(start: World, w: World, racers: set<string>, selector: Selector, order: seq<string>)
    requires HostsRace(start, w, racers, selector) && InOrder(order, w.hosts.Keys)
    ensures WalkOk(start, w, racers, selector, w.hosts, order)
  {
    forall h | InPool(start, selector, h)
      ensures h in order
    {
      assert h in w.hosts.Keys;
    }
  }

  lemma {:induction false} LookRaces(start: World, w: World, racers: set<string>, selector: Selector, m: string, order: seq<string>)
    requires RaceInv(start, w, racers, selector) && m in racers && CanReconcile(w, m, Look(order))
    ensures RaceInv(start, DoLook(w, m, order), racers, selector)
  {
    assert RacerPassOk(start, w, racers, selector, w.passes[m]);
    if w.passes[m].read.hostRef.None? { ListIsOk(start, w, racers, selector, order); }
    PassRaces(start, w, racers, selector, m, DoLook(w, m, order).passes[m]);
  }

  /** Taking the first host left in the list: everything before it is touched. */
  lemma {:induction false} TakeInOrder(start: World, w: World, w': World, racers: set<string>, selector: Selector, m: string, h: string, x: Host)
    requires HostsRace(start, w, racers, selector) && w'.era == w.era && m in racers
    requires h in w.hosts && InPool(start, selector, h) && w'.hosts == w.hosts[h := x] && x.claimedBy == Some(m)
    requires forall k :: InPool(start, selector, k) && Inventory.Compare(k, h) < 0 ==> Touched(w, racers, k)
    ensures HostsRace(start, w', racers, selector)
    ensures forall k :: Touched(w, racers, k) ==> Touched(w', racers, k)
  {
  }

  lemma {:induction false} PassRaces(start: World, w: World, racers: set<string>, selector: Selector, m: string, p: Pass)
    requires RaceInv(start, w, racers, selector) && m in racers && RacerPassOk(start, w, racers, selector, p)
    ensures RaceInv(start, SetPass(w, m, p), racers, selector)
  {
    var w' := SetPass(w, m, p);
    forall k | k != m
      ensures Framed(w, w', k)
    {
    }
    RaceStep(start, w, w', racers, selector, m);
  }

  lemma {:induction false} EndRaces(start: World, w: World, racers: set<string>, selector: Selector, m: string)
    requires RaceInv(start, w, racers, selector) && m in racers
    ensures RaceInv(start, EndPass(w, m), racers, selector)
  {
    var w' := EndPass(w, m);
    forall k | k != m
      ensures Framed(w, w', k)
    {
    }
    RaceStep(start, w, w', racers, selector, m);
  }

  lemma {:induction false} PutRaces(start: World, w: World, racers: set<string>, selector: Selector, m: string, h: string, x: Host, p: Pass)
    requires RaceInv(start, w, racers, selector) && m in racers && h in w.hosts && RacerPassOk(start, w, racers, selector, p)
    requires HostsRace(start, PutHost(w, h, x), racers, selector)
    requires forall k :: Touched(w, racers, k) ==> Touched(PutHost(w, h, x), racers, k)
    ensures RaceInv(start, SetPass(PutHost(w, h, x), m, p), racers, selector)
  {
    var v := PutHost(w, h, x);
    var w' := SetPass(v, m, p);
    forall k | k != m
      ensures Framed(w, w', k)
    {
    }
    RaceStep(start, w, w', racers, selector, m);
  }

  /** Skipping a host, or losing the race for it, means it was touched. */
  lemma {:induction false} PastOne(start: World, w: World, racers: set<string>, selector: Selector, list: map<string, Host>, rest: seq<string>)
    requires HostsRace(start, w, racers, selector) && WalkOk(start, w, racers, selector, list, rest)
    requires rest != [] && rest[0] in list
    requires !Eligible(list[rest[0]], selector) || !Fresh(w, rest[0], list[rest[0]])
    ensures WalkOk(start, w, racers, selector, list, rest[1..])
  {
    forall h | InPool(start, selector, h)
      ensures h in rest[1..] || Touched(w, racers, h)
    {
      assert rest == [rest[0]] + rest[1..];
    }
  }

  /** Every pool host that sorts before the head of the list is touched. */
  lemma {:induction false} HeadIsNext(start: World, w: World, racers: set<string>, selector: Selector, list: map<string, Host>, rest: seq<string>, k: string)
    requires WalkOk(start, w, racers, selector, list, rest) && rest != []
    requires InPool(start, selector, k) && Inventory.Compare(k, rest[0]) < 0
    ensures Touched(w, racers, k)
  {
    if k in rest {
      var i :| 0 <= i < |rest| && rest[i] == k;
      Inventory.CompareAntisymmetric(k, rest[0]);
      Inventory.CompareZero(k, k);
    }
  }

  lemma {:induction false} WalkTakesRaces(start: World, w: World, racers: set<string>, selector: Selector, m: string, list: map<string, Host>, rest: seq<string>)
    requires Inv(w) && RaceInv(start, w, racers, selector) && m in racers
    requires m in w.passes && w.passes[m] == Walking(selector, list, rest)
    requires rest != [] && rest[0] in list && Eligible(list[rest[0]], selector) && Fresh(w, rest[0], list[rest[0]])
    ensures RaceInv(start, SetPass(PutHost(w, rest[0], list[rest[0]].(claimedBy := Some(m))), m,
                                   Recording(rest[0], list[rest[0]].(claimedBy := Some(m), version := w.clock))), racers, selector)
  {
    var h := rest[0];
    var x := list[h].(claimedBy := Some(m));
    assert RacerPassOk(start, w, racers, selector, w.passes[m]);
    forall k | InPool(start, selector, k) && Inventory.Compare(k, h) < 0
      ensures Touched(w, racers, k)
    {
      HeadIsNext(start, w, racers, selector, list, rest, k);
    }
    TakeInOrder(start, w, PutHost(w, h, x), racers, selector, m, h, x.(version := w.clock));
    PutRaces(start, w, racers, selector, m, h, x, Recording(h, x.(version := w.clock)));
  }

  lemma {:induction false} WalkRaces(start: World, w: World, racers: set<string>, selector: Selector, m: string)
    requires Inv(w) && RaceInv(start, w, racers, selector) && m in racers && CanReconcile(w, m, Walk)
    ensures RaceInv(start, DoWalk(w, m), racers, selector)
  {
    var Walking(s, list, rest) := w.passes[m];
    assert RacerPassOk(start, w, racers, selector, w.passes[m]);
    if rest == [] {
      PassRaces(start, w, racers, selector, m, Finishing(None));
    } else if Eligible(list[rest[0]], selector) && Fresh(w, rest[0], list[rest[0]]) {
      WalkTakesRaces(start, w, racers, selector, m, list, rest);
    } else {
      PastOne(start, w, racers, selector, list, rest);
      PassRaces(start, w, racers, selector, m, Walking(s, list, rest[1..]));
      PassRaces(start, w, racers, selector, m, Finishing(None));
    }
  }

  lemma {:induction false} RecordRaces(start: World, w: World, racers: set<string>, selector: Selector, m: string)
    requires Inv(w) && RaceInv(start, w, racers, selector) && m in racers && CanReconcile(w, m, Record)
    ensures RaceInv(start, DoRecord(w, m), racers, selector)
  {
    var Recording(h, seen) := w.passes[m];
    assert PassOk(w, m, w.passes[m]);
    if Fresh(w, h, seen) {
      var x := seen.(claimRef := Some(Me(w, m)), phase := Claimed);
      PutRaces(start, w, racers, selector, m, h, x, Holding(h, x.(version := w.clock)));
    } else {
      PassRaces(start, w, racers, selector, m, Finishing(None));
    }
  }

  lemma {:induction false} MarkRaces(start: World, w: World, racers: set<string>, selector: Selector, m: string)
    requires Inv(w) && RaceInv(start, w, racers, selector) && m in racers && CanReconcile(w, m, MarkProvisioned)
    ensures RaceInv(start, DoMarkProvisioned(w, m), racers, selector)
  {
    var Holding(h, seen) := w.passes[m];
    assert PassOk(w, m, w.passes[m]);
    assert RacerPassOk(start, w, racers, selector, w.passes[m]);
    assert HostOk(w, h, w.hosts[h]) && RacerOk(w, selector, m);
    if seen.phase != Provisioned && Fresh(w, h, seen) {
      var x := seen.(phase := Provisioned);
      PutRaces(start, w, racers, selector, m, h, x, Finishing(Some(h)));
    } else {
      PassRaces(start, w, racers, selector, m, Finishing(Some(h)));
    }
  }

  lemma {:induction false} PatchRaces(start: World, w: World, racers: set<string>, selector: Selector, m: string)
    requires RaceInv(start, w, racers, selector) && m in racers && CanReconcile(w, m, Patch)
    ensures RaceInv(start, DoPatch(w, m), racers, selector)
  {
    var w' := DoPatch(w, m);
    assert RacerPassOk(start, w, racers, selector, w.passes[m]) && RacerOk(w, selector, m);
    forall k | k != m
      ensures Framed(w, w', k)
    {
    }
    RaceStep(start, w, w', racers, selector, m);
  }

  lemma {:induction false} RacerStep(start: World, w: World, racers: set<string>, selector: Selector, m: string, c: Call)
    requires Inv(w) && RaceInv(start, w, racers, selector) && m in racers && CanReconcile(w, m, c)
    ensures RaceInv(start, DoReconcile(w, m, c), racers, selector)
  {
    assert m in w.passes ==> RacerPassOk(start, w, racers, selector, w.passes[m]);
    assert RacerOk(w, selector, m);
    match c
    case Begin => PassRaces(start, w, racers, selector, m, Begun(w.machines[m]));
    case Look(order) => LookRaces(start, w, racers, selector, m, order);
    case Walk => WalkRaces(start, w, racers, selector, m);
    case Record => RecordRaces(start, w, racers, selector, m);
    case MarkProvisioned => MarkRaces(start, w, racers, selector, m);
    case GiveUp => PassRaces(start, w, racers, selector, m, Finishing(LocalRef(w.passes[m])));
    case Patch => PatchRaces(start, w, racers, selector, m);
    case Crash => EndRaces(start, w, racers, selector, m);
    case _ =>
  }

  lemma {:induction false} RunRaces(start: World, w: World, racers: set<string>, selector: Selector, actions: seq<Action>)
    requires Inv(w) && RaceInv(start, w, racers, selector)
    requires forall i :: 0 <= i < |actions| ==> Racing(actions[i], racers)
    ensures Inv(Run(w, actions)) && RaceInv(start, Run(w, actions), racers, selector)
    decreases |actions|
  {
    if actions != [] {
      var a := actions[0];
      StepKeeps(w, a);
      if Enabled(w, a) { RacerStep(start, w, racers, selector, a.machine, a.call); }
      RunRaces(start, Step(w, a), racers, selector, actions[1..]);
    }
  }

  // ---- who ends up with what

  ghost predicate AllHold(w: World, racers: set<string>) {
    forall m :: m in racers ==> m in w.machines && w.machines[m].hostRef.Some?
  }

  ghost function HeldHosts(w: World, racers: set<string>): set<string>
    requires AllHold(w, racers)
  {
    set m | m in racers :: w.machines[m].hostRef.value
  }

  lemma {:induction false} HolderLabels(start: World, w: World, racers: set<string>, selector: Selector, m: string)
    requires Inv(w) && RaceInv(start, w, racers, selector) && m in racers && w.machines[m].hostRef.Some?
    ensures
      var h := w.machines[m].hostRef.value;
      h in w.hosts && w.hosts[h].claimedBy == Some(m)
  {
    assert RacerOk(w, selector, m) && MachineOk(w, m, w.machines[m]);
    var h := w.machines[m].hostRef.value;
    assert m in w.passes ==> RacerPassOk(start, w, racers, selector, w.passes[m]);
    assert HostOk(w, h, w.hosts[h]);
  }

  lemma {:induction false} HeldIsTouched(start: World, w: World, racers: set<string>, selector: Selector, h: string)
    requires Inv(w) && RaceInv(start, w, racers, selector) && AllHold(w, racers)
    ensures h in HeldHosts(w, racers) <==> Touched(w, racers, h)
  {
    if h in HeldHosts(w, racers) {
      var m :| m in racers && w.machines[m].hostRef.value == h;
      HolderLabels(start, w, racers, selector, m);
    }
    if Touched(w, racers, h) {
      var m := w.hosts[h].claimedBy.value;
      HolderLabels(start, w, racers, selector, m);
    }
  }

  lemma {:induction false} HeldApart(start: World, w: World, racers: set<string>, selector: Selector, m: string, k: string)
    requires Inv(w) && RaceInv(start, w, racers, selector) && AllHold(w, racers) && m in racers && k in racers
    requires w.machines[m].hostRef == w.machines[k].hostRef
    ensures m == k
  {
    HolderLabels(start, w, racers, selector, m);
    HolderLabels(start, w, racers, selector, k);
  }

  /** Distinct racers hold distinct hosts, so there are as many hosts as racers. */
  lemma {:induction false} HeldCount(start: World, w: World, racers: set<string>, selector: Selector, some: set<string>)
    requires Inv(w) && RaceInv(start, w, racers, selector) && AllHold(w, racers) && some <= racers
    ensures |set m | m in some :: w.machines[m].hostRef.value| == |some|
  {
    if some != {} {
      var m :| m in some;
      var less := some - {m};
      HeldCount(start, w, racers, selector, less);
      var held, heldLess := set k | k in some :: w.machines[k].hostRef.value, set k | k in less :: w.machines[k].hostRef.value;
      assert held == heldLess + {w.machines[m].hostRef.value};
      if w.machines[m].hostRef.value in heldLess {
        var k :| k in less && w.machines[k].hostRef.value == w.machines[m].hostRef.value;
        HeldApart(start, w, racers, selector, m, k);
        assert false;
      }
    }
  }

  ghost function Names(order: seq<string>): set<string> {
    set h | h in order
  }

  lemma {:induction false} LastIsNew(order: seq<string>)
    requires Ascending(order) && order != []
    ensures order[|order| - 1] !in order[..|order| - 1]
  {
    Inventory.CompareZero(order[|order| - 1], order[|order| - 1]);
  }

  lemma {:induction false} SortedCount(order: seq<string>)
    requires Ascending(order)
    ensures |Names(order)| == |order|
  {
    if order != [] {
      var n := |order| - 1;
      SortedCount(order[..n]);
      LastIsNew(order);
      assert order == order[..n] + [order[n]];
      assert Names(order) == Names(order[..n]) + {order[n]};
    }
  }

  ghost predicate Closed(order: seq<string>, held: set<string>) {
    forall i, j :: 0 <= i < j < |order| && order[j] in held ==> order[i] in held
  }

  lemma {:induction false} ClosedWithLast(order: seq<string>, held: set<string>)
    requires Closed(order, held) && held <= Names(order) && order != [] && order[|order| - 1] in held
    ensures held == Names(order)
  {
  }

  /** A downward closed set of names is a prefix of their sorted sequence. */
  lemma {:induction false} ClosedIsPrefix(order: seq<string>, held: set<string>)
    requires Ascending(order) && held <= Names(order) && Closed(order, held)
    ensures |held| <= |order| && held == Names(order[..|held|])
  {
    SortedCount(order);
    if order == [] {
      assert held == {};
    } else if order[|order| - 1] in held {
      ClosedWithLast(order, held);
      assert order[..|held|] == order;
    } else {
      var n := |order| - 1;
      ClosedWithoutLast(order, held);
      ClosedIsPrefix(order[..n], held);
      assert order[..n][..|held|] == order[..|held|];
    }
  }

  lemma {:induction false} ClosedWithoutLast(order: seq<string>, held: set<string>)
    requires Ascending(order) && Closed(order, held) && held <= Names(order) && order != [] && order[|order| - 1] !in held
    ensures
      var init := order[..|order| - 1];
      Ascending(init) && Closed(init, held) && held <= Names(init)
  {
    var n := |order| - 1;
    assert order == order[..n] + [order[n]];
  }

  lemma {:induction false} HeldIsClosed(start: World, w: World, racers: set<string>, selector: Selector, order: seq<string>, pool: set<string>)
    requires Inv(w) && RaceInv(start, w, racers, selector) && AllHold(w, racers)
    requires (forall h :: h in pool <==> InPool(start, selector, h)) && InOrder(order, pool)
    ensures HeldHosts(w, racers) <= Names(order)
    ensures Closed(order, HeldHosts(w, racers))
  {
    forall h | h in HeldHosts(w, racers)
      ensures h in Names(order)
    {
      HeldIsTouched(start, w, racers, selector, h);
      assert h in pool;
    }
    forall i, j | 0 <= i < j < |order| && order[j] in HeldHosts(w, racers)
      ensures order[i] in HeldHosts(w, racers)
    {
      HeldIsTouched(start, w, racers, selector, order[j]);
      HeldIsTouched(start, w, racers, selector, order[i]);
      assert order[i] in pool;
    }
  }

  /** Once every racer holds a host, the hosts held are exactly the first |racers|
      of the pool in inventory order, whatever happened on the way. */
  lemma {:induction false} RaceTakesTheFirst(start: World, racers: set<string>, selector: Selector, actions: seq<Action>, order: seq<string>, pool: set<string>)
    requires AtStart(start, racers, selector)
    requires forall i :: 0 <= i < |actions| ==> Racing(actions[i], racers)
    requires (forall h :: h in pool <==> InPool(start, selector, h)) && InOrder(order, pool)
    requires AllHold(Run(start, actions), racers)
    ensures |racers| <= |order|
    ensures HeldHosts(Run(start, actions), racers) == set h | h in order[..|racers|]
  {
    RunRaces(start, start, racers, selector, actions);
    var w := Run(start, actions);
    HeldIsClosed(start, w, racers, selector, order, pool);
    HeldCount(start, w, racers, selector, racers);
    ClosedIsPrefix(order, HeldHosts(w, racers));
  }
}
