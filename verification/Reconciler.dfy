/** The controllers as the code they are: loops and API calls against a store that
    other actors change before every call.  Each method is proved to take only steps
    of the claim protocol, so whatever holds of every run holds of the code. */
module Reconciler {
  import opened Objects
  import opened Claims
  import opened ClaimSafety
  import opened ClaimTheorems
  import Inventory
  import Sorting

  /** What an update comes back with. */
  datatype Written = Stored(host: Host) | Conflict | NotFound

  datatype Claim = Found(host: string, seen: Host) | Nothing | Failed

  /** A step of somebody other than machine m's reconcile, while that reconcile lives. */
  predicate Foreign(a: Action, m: string) {
    !(a.Reconcile? && a.machine == m) && a != Operate(Move) && !LosesPatch(a)
  }

  lemma {:induction false} ForeignLeavesAlone(w: World, a: Action, m: string)
    requires Foreign(a, m)
    ensures PassOf(Step(w, a), m) == PassOf(w, m)
  {
    if Enabled(w, a) {
      match a
      case Operate(op) => OperateLeavesAlone(w, op, m);
      case Reconcile(k, c) => ReconcileFramed(w, k, c, m);
      case Watch(h, c) => WatchLeavesAlone(w, h, c);
    }
  }

  function ProbeOf(w: World, h: string): Option<Probe> {
    if h in w.probes then Some(w.probes[h]) else None
  }

  /** A step of somebody other than host h's own reconcile, while that one lives. */
  predicate ForeignToHost(a: Action, h: string) {
    !(a.Watch? && a.host == h) && a != Operate(Move) && !LosesPatch(a)
  }

  lemma {:induction false} ForeignLeavesProbe(w: World, a: Action, h: string)
    requires ForeignToHost(a, h)
    ensures ProbeOf(Step(w, a), h) == ProbeOf(w, h)
  {
    if Enabled(w, a) {
      match a
      case Operate(op) =>
      case Reconcile(m, c) => ReconcileFramed(w, m, c, m + "'");
      case Watch(k, c) =>
    }
  }

  class Cluster {
    var world: World
    var schedule: seq<seq<Action>>  // what the others do before each coming API call
    ghost const origin: World
    ghost var trace: seq<Action>    // every step since origin, by anybody

    ghost predicate Valid()
      reads this
    {
      world == Run(origin, trace) && NoLostPatch(trace)
    }

    constructor (w: World, others: seq<seq<Action>>)
      ensures Valid() && world == w && origin == w && schedule == others && trace == []
    {
      world, schedule, origin, trace := w, others, w, [];
    }

    /** Whatever this code and the others did, the state is as sound as it was at the
        start, and no host is held twice. */
    lemma {:induction false} Sound()
      requires Valid() && Inv(origin) && Exclusive(origin)
      ensures Inv(world) && Exclusive(world)
    {
      RunExclusive(origin, trace);
    }

    /** One step, recorded. */
    method Take(a: Action)
      requires Valid() && !LosesPatch(a)
      modifies this
      ensures Valid() && world == Step(old(world), a) && schedule == old(schedule)
    {
      RunConcat(origin, trace, [a]);
      RunOne(world, a);
      world := Step(world, a);
      trace := trace + [a];
    }

    /** The others' turn before an API call of m. */
    method Interfere(m: string)
      requires Valid()
      modifies this
      ensures Valid()
      ensures PassOf(world, m) == PassOf(old(world), m)
      ensures old(schedule) == [] ==> world == old(world) && schedule == []
    {
      if schedule == [] { return; }
      var turn := schedule[0];
      schedule := schedule[1..];
      for i := 0 to |turn|
        invariant Valid() && PassOf(world, m) == PassOf(old(world), m)
      {
        if Foreign(turn[i], m) {
          ForeignLeavesAlone(world, turn[i], m);
          Take(turn[i]);
        }
      }
    }

    /** The others' turn while a reconcile of host h is under way. */
    method InterfereHost(h: string)
      requires Valid()
      modifies this
      ensures Valid()
      ensures ProbeOf(world, h) == ProbeOf(old(world), h)
      ensures old(schedule) == [] ==> world == old(world) && schedule == []
    {
      if schedule == [] { return; }
      var turn := schedule[0];
      schedule := schedule[1..];
      for i := 0 to |turn|
        invariant Valid() && ProbeOf(world, h) == ProbeOf(old(world), h)
      {
        if ForeignToHost(turn[i], h) {
          ForeignLeavesProbe(world, turn[i], h);
          Take(turn[i]);
        }
      }
    }

    /** A write of the Host controller, shown to be a protocol step. */
    method Commit(next: World, ghost a: Action)
      requires Valid() && next == Step(world, a) && !LosesPatch(a)
      modifies this
      ensures Valid() && world == next && schedule == old(schedule)
    {
      RunConcat(origin, trace, [a]);
      RunOne(world, a);
      world := next;
      trace := trace + [a];
    }

    /** Update or Status().Update: commits only on the version last seen. */
    method Update(h: string, seen: Host, x: Host) returns (r: Written)
      modifies this
      ensures schedule == old(schedule) && trace == old(trace)
      ensures h !in old(world).hosts ==> r == NotFound && world == old(world)
      ensures h in old(world).hosts && !Fresh(old(world), h, seen) ==> r == Conflict && world == old(world)
      ensures Fresh(old(world), h, seen) ==>
                world == PutHost(old(world), h, x) && r == Stored(world.hosts[h])
    {
      if h !in world.hosts {
        r := NotFound;
      } else if world.hosts[h].version != seen.version {
        r := Conflict;
      } else {
        world := PutHost(world, h, x);
        r := Stored(world.hosts[h]);
      }
    }

    /** Book-keeping of the model: h has left the set of confirmed hosts. */
    method Unconfirm(h: string)
      modifies this
      ensures world == old(world).(confirmed := old(world).confirmed - {h})
      ensures schedule == old(schedule) && trace == old(trace)
    {
      world := world.(confirmed := world.confirmed - {h});
    }

    /** Where m's reconcile stands now; the step that led here goes on record. */
    method Advance(m: string, p: Pass, ghost before: World, ghost c: Call)
      requires before == Run(origin, trace) && NoLostPatch(trace) && c != LosePatch
      requires SetPass(world, m, p) == Step(before, Reconcile(m, c))
      modifies this
      ensures Valid() && world == SetPass(old(world), m, p) && world == Step(before, Reconcile(m, c))
      ensures schedule == old(schedule)
    {
      RunConcat(origin, trace, [Reconcile(m, c)]);
      RunOne(before, Reconcile(m, c));
      world := SetPass(world, m, p);
      trace := trace + [Reconcile(m, c)];
    }
  }

  // ---- listing the pool

  ghost predicate Listing(items: seq<Inventory.Item<Host>>, hosts: map<string, Host>) {
    && (forall i :: 0 <= i < |items| ==> items[i].name in hosts && hosts[items[i].name] == items[i].body)
    && (forall h :: h in hosts ==> exists i :: 0 <= i < |items| && items[i].name == h)
    && Inventory.DistinctNames(items)
  }

  /** List: the pool, in whatever order the cache happens to hold it. */
  method List(hosts: map<string, Host>) returns (items: array<Inventory.Item<Host>>)
    ensures fresh(items) && Listing(items[..], hosts)
  {
    var left := hosts.Keys;
    var listed: seq<Inventory.Item<Host>> := [];
    while left != {}
      invariant left <= hosts.Keys
      invariant forall i :: 0 <= i < |listed| ==> listed[i].name in hosts && listed[i].name !in left && hosts[listed[i].name] == listed[i].body
      invariant forall h :: h in hosts && h !in left ==> exists i :: 0 <= i < |listed| && listed[i].name == h
      invariant Inventory.DistinctNames(listed)
      decreases |left|
    {
      var h :| h in left;
      left := left - {h};
      assert forall k :: 0 <= k < |listed| ==> (listed + [Inventory.Item(h, hosts[h])])[k] == listed[k];
      listed := listed + [Inventory.Item(h, hosts[h])];
      assert listed[|listed| - 1].name == h;
    }
    items := new Inventory.Item<Host>[|listed|](i requires 0 <= i < |listed| => listed[i]);
    assert items[..] == listed;
  }

  function NamesOf(items: seq<Inventory.Item<Host>>): (names: seq<string>)
    ensures |names| == |items| && forall i :: 0 <= i < |items| ==> names[i] == items[i].name
  {
    seq(|items|, i requires 0 <= i < |items| => items[i].name)
  }

  /** SortHosts turns the listing into the pool in inventory order. */
  lemma {:induction false} SortedListing(items: seq<Inventory.Item<Host>>, hosts: map<string, Host>)
    requires Listing(items, hosts)
    ensures
      var sorted := Sorting.Sort(items, Inventory.ByName());
      Listing(sorted, hosts) && InOrder(NamesOf(sorted), hosts.Keys)
  {
    var sorted := Sorting.Sort(items, Inventory.ByName());
    Inventory.SortHostsCorrect(items, "");
    Inventory.ByNameIsPreorder<Host>();
    Inventory.DistinctIsStrict(items);
    Sorting.SortStrict(items, Inventory.ByName());
    Inventory.DistinctIsStrict(sorted);
    SameMembers(items, sorted, hosts);
    ListingInOrder(sorted, hosts);
  }

  lemma {:induction false} SameMembers(items: seq<Inventory.Item<Host>>, sorted: seq<Inventory.Item<Host>>, hosts: map<string, Host>)
    requires Listing(items, hosts) && multiset(sorted) == multiset(items) && Inventory.DistinctNames(sorted)
    ensures Listing(sorted, hosts)
  {
    forall i | 0 <= i < |sorted|
      ensures sorted[i].name in hosts && hosts[sorted[i].name] == sorted[i].body
    {
      assert sorted[i] in multiset(items);
      var k :| 0 <= k < |items| && items[k] == sorted[i];
    }
    forall h | h in hosts
      ensures exists i :: 0 <= i < |sorted| && sorted[i].name == h
    {
      var k :| 0 <= k < |items| && items[k].name == h;
      assert items[k] in multiset(sorted);
      var i :| 0 <= i < |sorted| && sorted[i] == items[k];
    }
  }

  lemma {:induction false} ListingInOrder(sorted: seq<Inventory.Item<Host>>, hosts: map<string, Host>)
    requires Listing(sorted, hosts) && Sorting.Ordered(sorted, Inventory.ByName())
    ensures InOrder(NamesOf(sorted), hosts.Keys)
  {
    var order := NamesOf(sorted);
    forall i, j | 0 <= i < j < |order|
      ensures Inventory.Compare(order[i], order[j]) < 0
    {
      assert Inventory.ByName<Host>()(sorted[i], sorted[j]);
      Inventory.CompareZero(order[i], order[j]);
    }
    forall h | h in hosts.Keys
      ensures h in order
    {
      var i :| 0 <= i < |sorted| && sorted[i].name == h;
      assert order[i] == h;
    }
  }

  // ---- claimHost

  /** The first listed host this machine's claim is on, or the length. */
  method FindClaimed(items: array<Inventory.Item<Host>>, hosts: map<string, Host>, uid: Uid) returns (i: nat)
    requires Listing(items[..], hosts)
    ensures i <= items.Length
    ensures FirstClaimed(NamesOf(items[..]), hosts, uid) == if i < items.Length then Some(items[i].name) else None
    ensures i < items.Length ==> items[i].name in hosts && items[i].body == hosts[items[i].name]
  {
    ghost var order := NamesOf(items[..]);
    i := 0;
    while i < items.Length
      invariant 0 <= i <= items.Length
      invariant FirstClaimed(order, hosts, uid) == FirstClaimed(order[i..], hosts, uid)
    {
      assert items[..][i] == items[i];
      assert order[i..][0] == items[i].name && order[i..][1..] == order[i + 1..];
      if items[i].body.claimRef == Some(uid) {
        return;
      }
      i := i + 1;
    }
  }

  /** The first listed host labelled with this machine's name, or the length. */
  method FindLabelled(items: array<Inventory.Item<Host>>, hosts: map<string, Host>, m: string) returns (i: nat)
    requires Listing(items[..], hosts)
    ensures i <= items.Length
    ensures FirstLabelled(NamesOf(items[..]), hosts, m) == if i < items.Length then Some(items[i].name) else None
    ensures i < items.Length ==> items[i].name in hosts && items[i].body == hosts[items[i].name]
  {
    ghost var order := NamesOf(items[..]);
    i := 0;
    while i < items.Length
      invariant 0 <= i <= items.Length
      invariant FirstLabelled(order, hosts, m) == FirstLabelled(order[i..], hosts, m)
    {
      assert items[..][i] == items[i];
      assert order[i..][0] == items[i].name && order[i..][1..] == order[i + 1..];
      if items[i].body.claimedBy == Some(m) {
        return;
      }
      i := i + 1;
    }
  }

  ghost predicate Stands(w: World, m: string, r: Claim) {
    && m in w.passes
    && w.passes[m] == if r.Found? then Holding(r.host, r.seen) else Finishing(None)
  }

  /** A claim without interference: a host that is returned is as it was last seen, and
      no host became Provisioned. */
  ghost predicate ClaimedOnly(w: World, w': World, r: Claim) {
    && (r.Found? ==> r.host in w'.hosts && w'.hosts[r.host] == r.seen)
    && NoneProvisioned(w, w')
  }

  ghost predicate NoneProvisioned(w: World, w': World) {
    forall h :: h in w'.hosts && w'.hosts[h].phase == Provisioned ==> h in w.hosts && w.hosts[h].phase == Provisioned
  }

  /** recordClaim, on the version the reconcile last saw. */
  method RecordClaim(c: Cluster, m: string, h: string, seen: Host) returns (r: Claim)
    requires c.Valid() && m in c.world.passes && c.world.passes[m] == Recording(h, seen)
    modifies c
    ensures c.Valid() && Stands(c.world, m, r) && (r.Found? ==> r.host == h) && r != Nothing
    ensures old(c.schedule) == [] ==> c.schedule == [] && c.world == DoRecord(old(c.world), m)
    ensures old(c.schedule) == [] ==> ClaimedOnly(old(c.world), c.world, r)
    ensures old(c.schedule) == [] && Fresh(old(c.world), h, seen) ==> r.Found? && RecordedAlone(old(c.world), c.world, m, h, seen)
  {
    c.Interfere(m);
    ghost var before := c.world;
    var x := seen.(claimRef := Some(Me(c.world, m)), phase := Claimed);
    var written := c.Update(h, seen, x);
    if written.Stored? {
      c.Advance(m, Holding(h, written.host), before, Record);
      r := Found(h, written.host);
    } else {
      c.Advance(m, Finishing(None), before, Record);
      r := Failed;
    }
  }

  /** Host h, which was x, carries m's claim in its status, and nothing else changed. */
  ghost predicate RecordedAlone(w: World, w': World, m: string, h: string, x: Host) {
    && h in w'.hosts && w'.era == w.era
    && w'.hosts == w.hosts[h := x.(claimRef := Some(Me(w, m)), phase := Claimed, version := w'.hosts[h].version)]
  }

  /** Host h has gone from x to m's claim, and nothing else about the hosts changed. */
  ghost predicate ClaimedAlone(w: World, w': World, m: string, h: string, x: Host) {
    && h in w'.hosts && w'.era == w.era
    && w'.hosts == w.hosts[h := x.(claimedBy := Some(m), claimRef := Some(Me(w, m)), phase := Claimed, version := w'.hosts[h].version)]
  }

  /** Trying for one eligible host: its label, then its claim.  Nothing if the race
      for it was lost. */
  method TakeHost(c: Cluster, m: string, selector: Selector, list: map<string, Host>, rest: seq<string>) returns (r: Claim)
    requires c.Valid() && m in c.world.passes && c.world.passes[m] == Walking(selector, list, rest)
    requires rest != [] && (forall h :: h in rest ==> h in list) && Eligible(list[rest[0]], selector)
    modifies c
    ensures c.Valid() && m in c.world.passes
    ensures c.world.passes[m] == match r
                                 case Found(h, seen) => Holding(h, seen)
                                 case Nothing => Walking(selector, list, rest[1..])
                                 case Failed => Finishing(None)
    ensures old(c.schedule) == [] ==> c.schedule == [] && c.world.machines == old(c.world).machines
    ensures old(c.schedule) == [] && Fresh(old(c.world), rest[0], list[rest[0]]) ==>
              r.Found? && r.host == rest[0] && c.schedule == [] && ClaimedAlone(old(c.world), c.world, m, rest[0], list[rest[0]])
    ensures old(c.schedule) == [] ==> ClaimedOnly(old(c.world), c.world, r)
  {
    var h, seen := rest[0], list[rest[0]];
    c.Interfere(m);
    ghost var before := c.world;
    var written := c.Update(h, seen, seen.(claimedBy := Some(m)));
    if written.Conflict? {
      c.Advance(m, Walking(selector, list, rest[1..]), before, Walk);
      r := Nothing;
    } else if written.NotFound? {
      c.Advance(m, Finishing(None), before, Walk);
      r := Failed;
    } else {
      c.Advance(m, Recording(h, written.host), before, Walk);
      r := RecordClaim(c, m, h, written.host);
    }
  }

  /** A host that cannot be taken is passed over without a call. */
  method SkipHost(c: Cluster, m: string, selector: Selector, list: map<string, Host>, rest: seq<string>)
    requires c.Valid() && m in c.world.passes && c.world.passes[m] == Walking(selector, list, rest)
    requires (forall h :: h in rest ==> h in list) && (rest != [] ==> !Eligible(list[rest[0]], selector))
    modifies c
    ensures c.Valid() && c.schedule == old(c.schedule)
    ensures c.world == SetPass(old(c.world), m, if rest == [] then Finishing(None) else Walking(selector, list, rest[1..]))
  {
    c.Advance(m, if rest == [] then Finishing(None) else Walking(selector, list, rest[1..]), c.world, Walk);
  }

  /** One turn of the fresh-claim loop. */
  method TryHost(c: Cluster, m: string, selector: Selector, list: map<string, Host>, rest: seq<string>) returns (r: Claim)
    requires c.Valid() && m in c.world.passes && c.world.passes[m] == Walking(selector, list, rest)
    requires rest != [] && forall h :: h in rest ==> h in list
    modifies c
    ensures c.Valid() && m in c.world.passes
    ensures old(c.schedule) == [] ==> c.schedule == [] && c.world.machines == old(c.world).machines
    ensures r == Nothing ==> c.world.passes[m] == Walking(selector, list, rest[1..])
    ensures r != Nothing ==> Stands(c.world, m, r)
    ensures !Eligible(list[rest[0]], selector) ==>
              r == Nothing && c.schedule == old(c.schedule) && c.world.hosts == old(c.world).hosts && c.world.era == old(c.world).era
    ensures Eligible(list[rest[0]], selector) && old(c.schedule) == [] && Fresh(old(c.world), rest[0], list[rest[0]]) ==>
              r.Found? && r.host == rest[0] && ClaimedAlone(old(c.world), c.world, m, rest[0], list[rest[0]])
    ensures old(c.schedule) == [] ==> ClaimedOnly(old(c.world), c.world, r)
  {
    if !Eligible(list[rest[0]], selector) {
      SkipHost(c, m, selector, list, rest);
      r := Nothing;
    } else {
      r := TakeHost(c, m, selector, list, rest);
    }
  }

  /** None of the first i hosts in order is eligible. */
  ghost predicate NoneBefore(list: map<string, Host>, order: seq<string>, i: nat, selector: Selector) {
    forall j :: 0 <= j < i && j < |order| && order[j] in list ==> !Eligible(list[order[j]], selector)
  }

  /** Where an undisturbed walk stands before host i: nothing was taken or changed. */
  ghost predicate Walked(w: World, now: World, list: map<string, Host>, order: seq<string>, i: nat, selector: Selector) {
    && now.hosts == list && now.era == w.era && now.machines == w.machines
    && NoneBefore(list, order, i, selector)
  }

  /** The fresh-claim loop: the first eligible host whose label can be taken. */
  method WalkPool(c: Cluster, m: string, order: seq<string>, list: map<string, Host>, selector: Selector) returns (r: Claim)
    requires c.Valid() && list == c.world.hosts && InOrder(order, list.Keys)
    requires m in c.world.passes && c.world.passes[m] == Walking(selector, list, order)
    modifies c
    ensures c.Valid() && Stands(c.world, m, r)
    ensures old(c.schedule) == [] ==>
              && c.schedule == [] && c.world.machines == old(c.world).machines
              && FirstTaken(old(c.world), c.world, m, selector, r)
    ensures old(c.schedule) == [] ==> ClaimedOnly(old(c.world), c.world, r)
  {
    assert order[0..] == order;
    ghost var w, alone := c.world, c.schedule == [];
    for i := 0 to |order|
      invariant c.Valid() && m in c.world.passes && c.world.passes[m] == Walking(selector, list, order[i..])
      invariant alone ==> c.schedule == [] && Walked(w, c.world, list, order, i, selector)
    {
      TailOf(order, list, i);
      r := TryHost(c, m, selector, list, order[i..]);
      if r != Nothing {
        if alone { FirstInOrder(w, c.world, m, selector, list, order, i, r); }
        return;
      }
    }
    if alone { NoneInOrder(list, order, selector); }
    SkipHost(c, m, selector, list, order[|order|..]);
    r := Nothing;
  }

  lemma {:induction false} TailOf(order: seq<string>, list: map<string, Host>, i: nat)
    requires i < |order| && forall k :: 0 <= k < |order| ==> order[k] in list
    ensures order[i..] != [] && order[i..][0] == order[i] && order[i..][1..] == order[i + 1..]
    ensures forall h :: h in order[i..] ==> h in list
  {
  }

  /** The claim of a machine that had none and was alone: the first eligible host in
      inventory order, or nothing when there is none. */
  ghost predicate FirstTaken(w: World, w': World, m: string, selector: Selector, r: Claim) {
    match r
    case Found(h, _) =>
      && h in w.hosts && Eligible(w.hosts[h], selector) && ClaimedAlone(w, w', m, h, w.hosts[h])
      && forall g :: g in w.hosts && Eligible(w.hosts[g], selector) ==> g == h || Inventory.Compare(h, g) < 0
    case Nothing => w'.hosts == w.hosts && forall g :: g in w.hosts ==> !Eligible(w.hosts[g], selector)
    case Failed => false
  }

  lemma {:induction false} FirstInOrder(w: World, w': World, m: string, selector: Selector, list: map<string, Host>, order: seq<string>, i: nat, r: Claim)
    requires w.hosts == list && InOrder(order, list.Keys) && i < |order| && Eligible(list[order[i]], selector)
    requires NoneBefore(list, order, i, selector)
    requires r.Found? && r.host == order[i] && ClaimedAlone(w, w', m, order[i], list[order[i]])
    ensures FirstTaken(w, w', m, selector, r)
  {
    forall g | g in list && Eligible(list[g], selector) ensures g == order[i] || Inventory.Compare(order[i], g) < 0 {
      var j :| 0 <= j < |order| && order[j] == g;
    }
  }

  lemma {:induction false} NoneInOrder(list: map<string, Host>, order: seq<string>, selector: Selector)
    requires InOrder(order, list.Keys) && NoneBefore(list, order, |order|, selector)
    ensures forall g :: g in list ==> !Eligible(list[g], selector)
  {
    forall g | g in list ensures !Eligible(list[g], selector) {
      var j :| 0 <= j < |order| && order[j] == g;
    }
  }

  /** claimHost of a machine that has a host on record. */
  method FetchRecorded(c: Cluster, m: string, h: string) returns (r: Claim)
    requires c.Valid() && m in c.world.passes && c.world.passes[m].Begun? && c.world.passes[m].read.hostRef == Some(h)
    modifies c
    ensures c.Valid() && Stands(c.world, m, r)
    ensures r == if h in old(c.world).hosts then Found(h, old(c.world).hosts[h]) else Nothing
    ensures c.world.hosts == old(c.world).hosts && c.world.machines == old(c.world).machines && c.schedule == old(c.schedule)
    ensures old(c.schedule) == [] ==> ClaimedOnly(old(c.world), c.world, r)
  {
    if h !in c.world.hosts {
      c.Advance(m, Finishing(None), c.world, Look([]));
      return Nothing;
    }
    var seen := c.world.hosts[h];
    c.Advance(m, Holding(h, seen), c.world, Look([]));
    return Found(h, seen);
  }

  /** What the two recoveries make of world w when nobody else acts. */
  ghost predicate RecoveredAlone(w: World, w': World, m: string, order: seq<string>, r: Claim) {
    match FirstClaimed(order, w.hosts, Me(w, m))
    case Some(h) => r == Found(h, w.hosts[h]) && w'.hosts == w.hosts && w'.era == w.era
    case None =>
      match FirstLabelled(order, w.hosts, m)
      case Some(h) => w' == DoRecord(SetPass(w, m, Recording(h, w.hosts[h])), m) && Stands(w', m, r)
      case None => m in w.passes && w.passes[m].Begun? && FirstTaken(w, w', m, w.passes[m].read.selector, r)
  }

  /** List and SortHosts: the pool in inventory order. */
  method ListInOrder(hosts: map<string, Host>) returns (items: array<Inventory.Item<Host>>)
    ensures fresh(items) && Listing(items[..], hosts) && InOrder(NamesOf(items[..]), hosts.Keys)
  {
    items := List(hosts);
    SortedListing(items[..], hosts);
    Inventory.SortHosts(items);
  }

  /** The Look step, once the code has decided where it leads. */
  method Looked(c: Cluster, m: string, p: Pass, ghost order: seq<string>)
    requires c.Valid() && m in c.world.passes && c.world.passes[m].Begun? && InOrder(order, c.world.hosts.Keys)
    requires p == LookPass(c.world, m, c.world.passes[m].read, order)
    modifies c
    ensures c.Valid() && c.world == SetPass(old(c.world), m, p) && c.schedule == old(c.schedule)
  {
    c.Advance(m, p, c.world, Look(order));
  }

  /** claimHost of a machine without one: list, sort, recover, or claim afresh. */
  method ClaimFromPool(c: Cluster, m: string) returns (r: Claim, ghost order: seq<string>)
    requires c.Valid() && m in c.world.passes && c.world.passes[m].Begun? && c.world.passes[m].read.hostRef == None
    modifies c
    ensures c.Valid() && Stands(c.world, m, r) && InOrder(order, old(c.world).hosts.Keys)
    ensures old(c.schedule) == [] ==> c.schedule == [] && c.world.machines == old(c.world).machines
    ensures old(c.schedule) == [] ==> RecoveredAlone(old(c.world), c.world, m, order, r)
    ensures old(c.schedule) == [] ==> ClaimedOnly(old(c.world), c.world, r)
  {
    var list := c.world.hosts;
    var items := ListInOrder(list);
    order := NamesOf(items[..]);
    var i := FindClaimed(items, list, Me(c.world, m));
    if i < items.Length {
      Looked(c, m, Holding(items[i].name, items[i].body), order);
      r := Found(items[i].name, items[i].body);
    } else {
      r := ClaimByLabel(c, m, items, list);
    }
  }

  /** The rest of claimHost once no claim of this machine was found in the list. */
  method ClaimByLabel(c: Cluster, m: string, items: array<Inventory.Item<Host>>, list: map<string, Host>) returns (r: Claim)
    requires c.Valid() && m in c.world.passes && c.world.passes[m].Begun? && c.world.passes[m].read.hostRef == None
    requires list == c.world.hosts && Listing(items[..], list) && InOrder(NamesOf(items[..]), list.Keys)
    requires FirstClaimed(NamesOf(items[..]), list, Me(c.world, m)) == None
    modifies c
    ensures c.Valid() && Stands(c.world, m, r)
    ensures old(c.schedule) == [] ==> c.schedule == [] && c.world.machines == old(c.world).machines
    ensures old(c.schedule) == [] ==> RecoveredAlone(old(c.world), c.world, m, NamesOf(items[..]), r)
    ensures old(c.schedule) == [] ==> ClaimedOnly(old(c.world), c.world, r)
  {
    var selector := c.world.passes[m].read.selector;
    var i := FindLabelled(items, list, m);
    if i < items.Length {
      Looked(c, m, Recording(items[i].name, items[i].body), NamesOf(items[..]));
      r := RecordClaim(c, m, items[i].name, items[i].body);
    } else {
      Looked(c, m, Walking(selector, list, NamesOf(items[..])), NamesOf(items[..]));
      r := WalkPool(c, m, NamesOf(items[..]), list, selector);
    }
  }

  /** claimHost: the recorded host, a recovered claim, or a fresh one.  A pool that
      nobody else touches gives a machine with a claim or a label exactly that host
      back, gives any other machine the first eligible host in inventory order, and
      leaves every other host as it was.  A machine with a host on record never gets
      another one. */
  method ClaimHost(c: Cluster, m: string) returns (r: Claim)
    requires c.Valid() && m in c.world.passes && c.world.passes[m].Begun?
    modifies c
    ensures c.Valid() && Stands(c.world, m, r)
    ensures old(c.schedule) == [] ==> c.schedule == [] && c.world.machines == old(c.world).machines
    ensures old(c.schedule) == [] && Inv(old(c.world)) ==>
              forall h :: Recoverable(old(c.world), m, h) ==> Recovered(old(c.world), c.world, m, h, r)
    ensures old(c.schedule) == [] && Unclaiming(old(c.world), m) ==>
              FirstTaken(old(c.world), c.world, m, old(c.world).passes[m].read.selector, r)
    ensures
      var ref := old(c.world).passes[m].read.hostRef;
      ref.Some? ==>
        && (r == Nothing || (r.Found? && r.host == ref.value))
        && (old(c.schedule) == [] ==> c.world.hosts == old(c.world).hosts && (r.Found? <==> ref.value in old(c.world).hosts))
    ensures old(c.schedule) == [] ==> ClaimedOnly(old(c.world), c.world, r)
  {
    c.Interfere(m);
    ghost var before := c.world;
    var ref := c.world.passes[m].read.hostRef;
    if ref.Some? {
      r := FetchRecorded(c, m, ref.value);
    } else {
      ghost var alone := c.schedule == [];
      ghost var order;
      r, order := ClaimFromPool(c, m);
      if alone && Inv(before) {
        forall h | Recoverable(before, m, h)
          ensures Recovered(before, c.world, m, h, r)
        {
          LookRecovers(before, m, order, h);
        }
      }
    }
  }

  /** m has no host on record, and no host names it. */
  ghost predicate Unclaiming(w: World, m: string) {
    && m in w.passes && w.passes[m].Begun? && w.passes[m].read.hostRef == None
    && forall h :: h in w.hosts ==> w.hosts[h].claimRef != Some(Me(w, m)) && w.hosts[h].claimedBy != Some(m)
  }

  /** m forgot its host, but the host still names m, by claim or by label. */
  ghost predicate Recoverable(w: World, m: string, h: string) {
    && m in w.machines && !w.machines[m].deleting && h in w.hosts
    && m in w.passes && w.passes[m].Begun? && w.passes[m].read.hostRef == None
    && (w.hosts[h].claimRef == Some(Me(w, m)) || w.hosts[h].claimedBy == Some(m))
  }

  ghost predicate Recovered(w: World, w': World, m: string, h: string, r: Claim) {
    && r.Found? && r.host == h && h in w'.hosts
    && w'.hosts[h].claimRef == Some(Me(w', m)) && w'.hosts[h].claimedBy == Some(m)
    && h in w.hosts
    && (w.hosts[h].claimRef == Some(Me(w, m)) ==> w'.hosts[h] == w.hosts[h])
    && (w.hosts[h].claimRef != Some(Me(w, m)) ==> w'.hosts[h].phase == Claimed)
    && w'.hosts.Keys == w.hosts.Keys
    && forall g :: g in w.hosts && g != h ==> w'.hosts[g] == w.hosts[g]
  }

  /** In a sound state the recoveries can only lead to that one host. */
  lemma {:induction false} LookRecovers(w: World, m: string, order: seq<string>, h: string)
    requires Inv(w) && InOrder(order, w.hosts.Keys) && Recoverable(w, m, h)
    ensures
      || (FirstClaimed(order, w.hosts, Me(w, m)) == Some(h) && w.hosts[h].claimedBy == Some(m))
      || (FirstClaimed(order, w.hosts, Me(w, m)) == None && FirstLabelled(order, w.hosts, m) == Some(h))
  {
    assert h in order && HostOk(w, h, w.hosts[h]);
    var c := FirstClaimed(order, w.hosts, Me(w, m));
    if c.Some? {
      assert HostOk(w, c.value, w.hosts[c.value]);
    }
  }

  /** markHostProvisioned; false when the update is refused. */
  method MarkHostProvisioned(c: Cluster, m: string, h: string, seen: Host) returns (ok: bool)
    requires c.Valid() && m in c.world.passes && c.world.passes[m] == Holding(h, seen)
    modifies c
    ensures c.Valid() && m in c.world.passes && c.world.passes[m] == Finishing(Some(h))
    ensures old(c.schedule) == [] ==> c.schedule == [] && c.world == DoMarkProvisioned(old(c.world), m)
    ensures old(c.schedule) == [] ==> (ok <==> seen.phase == Provisioned || Fresh(old(c.world), h, seen))
    ensures old(c.schedule) == [] ==> c.world.machines == old(c.world).machines
    ensures old(c.schedule) == [] && ok && h in old(c.world).hosts && old(c.world).hosts[h] == seen ==>
              PhaseSet(old(c.world), c.world, h, Provisioned)
  {
    if seen.phase == Provisioned {
      c.Advance(m, Finishing(Some(h)), c.world, MarkProvisioned);
      return true;
    }
    c.Interfere(m);
    ghost var before := c.world;
    var written := c.Update(h, seen, seen.(phase := Provisioned));
    c.Advance(m, Finishing(Some(h)), before, MarkProvisioned);
    ok := written.Stored?;
  }

  /** The second half of releaseHost: the status. */
  method ClearStatus(c: Cluster, m: string, h: string, seen: Host) returns (ok: bool)
    requires c.Valid() && m in c.world.passes && c.world.passes[m] == Clearing(h, seen)
    modifies c
    ensures c.Valid() && m in c.world.passes
    ensures c.world.passes[m] == if ok then Released(h) else Finishing(Some(h))
    ensures old(c.schedule) == [] ==> c.schedule == [] && c.world == DoClear(old(c.world), m)
  {
    c.Interfere(m);
    ghost var before := c.world;
    var written := c.Update(h, seen, seen.(claimRef := None, phase := Pending));
    if written.Conflict? {
      c.Advance(m, Finishing(Some(h)), before, Clear);
      return false;
    }
    if written.Stored? {
      c.Unconfirm(h);
    }
    c.Advance(m, Released(h), before, Clear);
    ok := true;
  }

  /** Host h has gone from x back to the pool, unconfirmed, and no other host changed. */
  ghost predicate FreedAlone(w: World, w': World, h: string, x: Host) {
    && h in w'.hosts && h !in w'.confirmed
    && w'.hosts == w.hosts[h := x.(claimedBy := None, claimRef := None, phase := Pending, version := w'.hosts[h].version)]
  }

  /** releaseHost: the label goes first, the status after it; a host that is gone
      needs neither. */
  method ReleaseHost(c: Cluster, m: string, h: string, seen: Host) returns (ok: bool)
    requires c.Valid() && m in c.world.passes && c.world.passes[m] == Resetting(h, seen)
    modifies c
    ensures c.Valid() && m in c.world.passes
    ensures c.world.passes[m] == if ok then Released(h) else Finishing(Some(h))
    ensures old(c.schedule) == [] && Fresh(old(c.world), h, seen) ==> ok && FreedAlone(old(c.world), c.world, h, seen)
    ensures old(c.schedule) == [] ==> c.schedule == [] && c.world.machines == old(c.world).machines
  {
    c.Interfere(m);
    ghost var before := c.world;
    var unlabelled := seen.(claimedBy := None);
    var written := c.Update(h, seen, unlabelled);
    if written.Conflict? {
      c.Advance(m, Finishing(Some(h)), before, Unlabel);
      return false;
    }
    var now := if written.Stored? then written.host else unlabelled;
    c.Advance(m, Clearing(h, now), before, Unlabel);
    ok := ClearStatus(c, m, h, now);
  }

  /** reconcileDelete; true when the host is back in the pool or was gone. */
  method ReconcileDelete(c: Cluster, m: string) returns (ok: bool)
    requires c.Valid() && m in c.world.passes && c.world.passes[m].Deleting?
    modifies c
    ensures c.Valid() && m in c.world.passes
    ensures ok ==> c.world.passes[m].Released? || c.world.passes[m] == Leaving
    ensures !ok ==> c.world.passes[m] == Finishing(old(c.world).passes[m].ref)
    ensures old(c.schedule) == [] ==> c.schedule == [] && c.world.machines == old(c.world).machines
    ensures old(c.schedule) == [] ==>
              var ref := old(c.world).passes[m].ref;
              ok && if ref.Some? && ref.value in old(c.world).hosts
                    then FreedAlone(old(c.world), c.world, ref.value, old(c.world).hosts[ref.value])
                    else c.world.hosts == old(c.world).hosts
  {
    var ref := c.world.passes[m].ref;
    c.Interfere(m);
    ghost var before := c.world;
    if ref.None? || ref.value !in c.world.hosts {
      c.Advance(m, Leaving, before, Fetch);
      return true;
    }
    var seen := c.world.hosts[ref.value];
    c.Advance(m, Resetting(ref.value, seen), before, Fetch);
    ok := ReleaseHost(c, m, ref.value, seen);
  }

  // ---- a whole reconcile

  /** The deferred patch: the reference and the finalizer, if the machine still exists. */
  method PatchMachine(c: Cluster, m: string)
    requires c.Valid() && m in c.world.passes && c.world.passes[m].Finishing?
    modifies c
    ensures c.Valid() && m !in c.world.passes
    ensures old(c.schedule) == [] ==> c.world == DoPatch(old(c.world), m)
    ensures old(c.schedule) == [] ==>
              && c.world.hosts == old(c.world).hosts
              && c.world.machines == if m in old(c.world).machines
                                     then old(c.world).machines[m := old(c.world).machines[m].(hostRef := old(c.world).passes[m].ref, finalizer := true)]
                                     else old(c.world).machines
  {
    c.Interfere(m);
    var ref := c.world.passes[m].ref;
    var next := EndPass(c.world, m);
    if m in c.world.machines {
      var now := c.world.machines[m];
      next := next.(machines := c.world.machines[m := now.(hostRef := ref, finalizer := true)]);
    }
    c.Commit(next, Reconcile(m, Patch));
  }

  /** A reconcile of a machine that is being deleted: once its host is released the
      finalizer goes, and the machine with it. */
  method ReconcileDeleted(c: Cluster, m: string)
    requires c.Valid() && m in c.world.machines && m !in c.world.passes && c.world.machines[m].deleting
    modifies c
    ensures c.Valid() && m !in c.world.passes
    ensures old(c.schedule) == [] ==>
              var ref := old(c.world).machines[m].hostRef;
              && c.world.machines == old(c.world).machines - {m}
              && (if ref.Some? && ref.value in old(c.world).hosts
                  then FreedAlone(old(c.world), c.world, ref.value, old(c.world).hosts[ref.value])
                  else c.world.hosts == old(c.world).hosts)
  {
    c.Advance(m, Deleting(c.world.machines[m].hostRef), c.world, Begin);
    var ok := ReconcileDelete(c, m);
    if ok {
      c.Interfere(m);
      c.Commit(EndPass(c.world, m).(machines := c.world.machines - {m}), Reconcile(m, Drop));
    } else {
      PatchMachine(c, m);
    }
  }

  /** Host h names m, by claim or by label. */
  ghost predicate Names(w: World, m: string, h: string) {
    h in w.hosts && (w.hosts[h].claimRef == Some(Me(w, m)) || w.hosts[h].claimedBy == Some(m))
  }

  /** The host a live machine ends up with when it is alone: the one on record if it
      still exists, the one that names it, or the first eligible one. */
  ghost predicate GetsHost(w: World, m: string, x: Machine, ref: Option<string>) {
    if x.hostRef.Some? then ref == if x.hostRef.value in w.hosts then x.hostRef else None
    else
      && (forall h :: Names(w, m, h) ==> ref == Some(h))
      && ((forall h :: !Names(w, m, h)) ==>
            match ref
            case Some(h) =>
              && h in w.hosts && Eligible(w.hosts[h], x.selector)
              && forall g :: g in w.hosts && Eligible(w.hosts[g], x.selector) ==> g == h || Inventory.Compare(h, g) < 0
            case None => forall g :: g in w.hosts ==> !Eligible(w.hosts[g], x.selector))
  }

  /** The host a ready machine ends up with is Provisioned if its script has succeeded;
      otherwise no host becomes Provisioned. */
  ghost predicate Bootstrapped(w: World, w': World, ref: Option<string>, succeeded: bool) {
    && (succeeded && ref.Some? && ref.value in w'.hosts ==> w'.hosts[ref.value].phase == Provisioned)
    && (forall h :: h in w'.hosts && w'.hosts[h].phase == Provisioned && !(succeeded && ref == Some(h)) ==>
          h in w.hosts && w.hosts[h].phase == Provisioned)
  }

  lemma {:induction false} ClaimDecides(w: World, w': World, m: string, r: Claim)
    requires m in w.passes && w.passes[m].Begun? && m in w.machines && !w.machines[m].deleting
    requires forall h :: Recoverable(w, m, h) ==> Recovered(w, w', m, h, r)
    requires Unclaiming(w, m) ==> FirstTaken(w, w', m, w.passes[m].read.selector, r)
    requires
      var ref := w.passes[m].read.hostRef;
      ref.Some? ==> (r == Nothing || (r.Found? && r.host == ref.value)) && (r.Found? <==> ref.value in w.hosts)
    ensures GetsHost(w, m, w.passes[m].read, if r.Found? then Some(r.host) else None)
  {
    if w.passes[m].read.hostRef.None? {
      forall h | Names(w, m, h) ensures r.Found? && r.host == h { assert Recoverable(w, m, h); }
      if forall h :: !Names(w, m, h) {
        forall h | h in w.hosts ensures w.hosts[h].claimRef != Some(Me(w, m)) && w.hosts[h].claimedBy != Some(m) {
          assert !Names(w, m, h);
        }
        assert Unclaiming(w, m);
      }
    }
  }

  /** reconcileNormal: nothing until the cluster and the bootstrap data are there, then
      the claim, then the bootstrap. */
  method ReconcileNormal(c: Cluster, m: string, ready: bool, succeeded: bool)
    requires c.Valid() && m in c.world.passes && c.world.passes[m].Begun?
    modifies c
    ensures c.Valid() && m in c.world.passes && c.world.passes[m].Finishing?
    ensures old(c.schedule) == [] && !ready ==>
              c.world == SetPass(old(c.world), m, Finishing(old(c.world).passes[m].read.hostRef)) && c.schedule == []
    ensures
      var ref := old(c.world).passes[m].read.hostRef;
      ref.Some? ==> c.world.passes[m].ref == None || c.world.passes[m].ref == ref
    ensures old(c.schedule) == [] ==> c.schedule == [] && c.world.machines == old(c.world).machines
    ensures old(c.schedule) == [] && ready && Inv(old(c.world)) && m in old(c.world).machines && !old(c.world).machines[m].deleting ==>
              GetsHost(old(c.world), m, old(c.world).passes[m].read, c.world.passes[m].ref)
    ensures old(c.schedule) == [] && ready ==> Bootstrapped(old(c.world), c.world, c.world.passes[m].ref, succeeded)
  {
    if !ready {
      c.Advance(m, Finishing(c.world.passes[m].read.hostRef), c.world, GiveUp);
      return;
    }
    ghost var before, alone := c.world, c.schedule == [];
    var r := ClaimHost(c, m);
    if alone && Inv(before) && m in before.machines && !before.machines[m].deleting {
      ClaimDecides(before, c.world, m, r);
    }
    if !r.Found? { return; }
    if succeeded {
      var ok := MarkHostProvisioned(c, m, r.host, r.seen);
    } else {
      c.Advance(m, Finishing(Some(r.host)), c.world, GiveUp);
    }
  }

  lemma {:induction false} GetsHostAlike(w: World, w': World, m: string)
    requires w'.hosts == w.hosts && w'.era == w.era
    ensures forall x, ref :: GetsHost(w', m, x, ref) ==> GetsHost(w, m, x, ref)
  {
    forall h ensures Names(w', m, h) <==> Names(w, m, h) {}
  }

  /** Reconcile of a HostMachine, from its first read to its deferred patch.  One that
      is not there, has no owner yet or is paused is left alone. */
  method ReconcileMachine(c: Cluster, m: string, active: bool, ready: bool, succeeded: bool)
    requires c.Valid() && m !in c.world.passes
    modifies c
    ensures c.Valid() && m !in c.world.passes
    ensures old(c.schedule) == [] && (m !in old(c.world).machines || !active) ==> c.world == old(c.world)
    ensures old(c.schedule) == [] && m in old(c.world).machines && active && !old(c.world).machines[m].deleting && !ready ==>
              && c.world.hosts == old(c.world).hosts
              && c.world.machines == old(c.world).machines[m := old(c.world).machines[m].(finalizer := true)]
    ensures old(c.schedule) == [] && m in old(c.world).machines && active && old(c.world).machines[m].deleting ==>
              c.world.machines == old(c.world).machines - {m}
    ensures old(c.schedule) == [] && Inv(old(c.world)) && m in old(c.world).machines && active && ready
            && !old(c.world).machines[m].deleting ==>
              && m in c.world.machines && GetsHost(old(c.world), m, old(c.world).machines[m], c.world.machines[m].hostRef)
              && c.world.machines == old(c.world).machines[m := old(c.world).machines[m].(hostRef := c.world.machines[m].hostRef,
                                                                                          finalizer := true)]
    ensures old(c.schedule) == [] && m in old(c.world).machines && active && ready && !old(c.world).machines[m].deleting ==>
              && m in c.world.machines
              && Bootstrapped(old(c.world), c.world, c.world.machines[m].hostRef, succeeded)
  {
    c.Interfere(m);
    if m !in c.world.machines || !active { return; }
    if c.world.machines[m].deleting {
      ReconcileDeleted(c, m);
      return;
    }
    ghost var before := c.world;
    c.Advance(m, Begun(c.world.machines[m]), c.world, Begin);
    if Inv(before) { StepKeeps(before, Reconcile(m, Begin)); }
    GetsHostAlike(before, c.world, m);
    ReconcileNormal(c, m, ready, succeeded);
    PatchMachine(c, m);
  }

  // ---- the Host controller

  /** The host is claimed by a machine that still exists. */
  predicate Waits(w: World, h: string)
    requires h in w.hosts
  {
    w.hosts[h].claimRef.Some? && w.hosts[h].claimRef.value.machine in w.machines
  }

  /** reconcileDelete of a Host: it waits while its claimant exists. */
  method ReconcileHostDelete(c: Cluster, h: string)
    requires c.Valid() && h in c.world.hosts && h !in c.world.probes && c.world.hosts[h].deleting
    modifies c
    ensures c.Valid() && h !in c.world.probes
    ensures old(c.schedule) == [] ==>
              c.world.hosts == if Waits(old(c.world), h) then old(c.world).hosts else old(c.world).hosts - {h}
  {
    var claim := c.world.hosts[h].claimRef;
    if claim.Some? {
      c.Commit(SetProbe(c.world, h, Checking(c.world.hosts[h])), Watch(h, HostBegin));
      c.InterfereHost(h);
      if claim.value.machine in c.world.machines {
        c.Commit(EndProbe(c.world, h), Watch(h, HostCheck));
        return;
      }
      c.Commit(SetProbe(c.world, h, Removing), Watch(h, HostCheck));
    } else {
      c.Commit(SetProbe(c.world, h, Removing), Watch(h, HostBegin));
    }
    c.InterfereHost(h);
    c.Commit(EndProbe(c.world, h).(hosts := c.world.hosts - {h}), Watch(h, HostRemove));
  }

  ghost predicate PhaseSet(w: World, w': World, h: string, phase: Phase) {
    && h in w.hosts && h in w'.hosts
    && w'.hosts == w.hosts[h := w.hosts[h].(phase := phase, version := w'.hosts[h].version)]
  }

  /** The patch of a Host: only the phase, and only if it changed since the read. */
  method PatchPhase(c: Cluster, h: string, seen: Host, phase: Phase)
    requires c.Valid() && h in c.world.probes && c.world.probes[h] == Writing(seen, phase)
    modifies c
    ensures c.Valid() && h !in c.world.probes
    ensures old(c.schedule) == [] && h in old(c.world).hosts && old(c.world).hosts[h] == seen ==>
              PhaseSet(old(c.world), c.world, h, phase)
  {
    c.InterfereHost(h);
    var next := EndProbe(c.world, h);
    if h in c.world.hosts {
      var now := c.world.hosts[h];
      var patched := if phase != seen.phase then now.(phase := phase) else now;
      next := EndProbe(PutHost(c.world, h, patched), h);
    }
    c.Commit(next, Watch(h, HostWrite));
  }

  /** What a probe makes of a host, spelled out. */
  ghost predicate Probed(x: Host, answers: bool, phase: Phase) {
    && (x.unhealthy || !answers ==> phase == Unreachable)
    && (!x.unhealthy && answers && x.claimedBy.Some? ==> phase == Claimed)
    && (!x.unhealthy && answers && x.claimedBy.None? ==> phase == Available)
  }

  /** probe, and the patch of what it found. */
  method ProbeHost(c: Cluster, h: string, answers: bool)
    requires c.Valid() && h in c.world.hosts && h !in c.world.probes
    requires !c.world.hosts[h].deleting && c.world.hosts[h].claimRef.None? && !c.world.hosts[h].unhealthy
    modifies c
    ensures c.Valid() && h !in c.world.probes
    ensures old(c.schedule) == [] ==>
              && h in c.world.hosts && Probed(old(c.world).hosts[h], answers, c.world.hosts[h].phase)
              && PhaseSet(old(c.world), c.world, h, c.world.hosts[h].phase)
  {
    var seen := c.world.hosts[h];
    c.Commit(SetProbe(c.world, h, Probing(seen)), Watch(h, HostBegin));
    c.InterfereHost(h);
    var phase := Unreachable;
    var confirmed := c.world.confirmed;
    if answers {
      phase := if seen.claimedBy.Some? then Claimed else Available;
      confirmed := confirmed + {h};
    }
    c.Commit(SetProbe(c.world, h, Writing(seen, phase)).(confirmed := confirmed), Watch(h, HostProbe(answers)));
    PatchPhase(c, h, seen, phase);
  }

  /** Reconcile of a Host: a claimed one is left alone, any other is probed. */
  method ReconcileHost(c: Cluster, h: string, answers: bool)
    requires c.Valid() && h in c.world.hosts && h !in c.world.probes
    modifies c
    ensures c.Valid() && h !in c.world.probes
    ensures !old(c.world).hosts[h].deleting && old(c.world).hosts[h].claimRef.Some? ==> c.world == old(c.world)
    ensures old(c.schedule) == [] && !old(c.world).hosts[h].deleting && old(c.world).hosts[h].claimRef.None? ==>
              && h in c.world.hosts && Probed(old(c.world).hosts[h], answers, c.world.hosts[h].phase)
              && PhaseSet(old(c.world), c.world, h, c.world.hosts[h].phase)
    ensures old(c.schedule) == [] && old(c.world).hosts[h].deleting ==>
              c.world.hosts == if Waits(old(c.world), h) then old(c.world).hosts else old(c.world).hosts - {h}
  {
    var seen := c.world.hosts[h];
    if seen.deleting {
      ReconcileHostDelete(c, h);
      return;
    }
    if seen.claimRef.Some? {
      return;
    }
    if seen.unhealthy {
      c.Commit(SetProbe(c.world, h, Writing(seen, Unreachable)), Watch(h, HostBegin));
      PatchPhase(c, h, seen, Unreachable);
      return;
    }
    ProbeHost(c, h, answers);
  }
}
